/**
 * The retry loop of SQSBatcher.flush as functions: one attempt (Attempt),
 * the whole bounded loop (RunAttempts) and a flush of a batch (FlushTrace),
 * with the properties the loop promises proved about them.
 */
module SqsRetry {
  import opened Wrappers
  import opened SqsSize
  import opened SqsTypes

  /** `a` is an order-preserving selection of the elements of `b`. */
  predicate IsSubsequence<T(==)>(a: seq<T>, b: seq<T>)
    decreases |b|
  {
    a == [] || (b != [] && ((a[0] == b[0] && IsSubsequence(a[1..], b[1..])) || IsSubsequence(a, b[1..])))
  }

  lemma {:induction false} SubsequenceReflexive<T>(a: seq<T>)
    ensures IsSubsequence(a, a)
    decreases |a|
  {
    if a != [] {
      SubsequenceReflexive(a[1..]);
    }
  }

  lemma {:induction false} SubsequenceTransitive<T>(a: seq<T>, b: seq<T>, c: seq<T>)
    requires IsSubsequence(a, b) && IsSubsequence(b, c)
    ensures IsSubsequence(a, c)
    decreases |c|
  {
    if a != [] {
      if IsSubsequence(b, c[1..]) {
        SubsequenceTransitive(a, b, c[1..]);
      } else if a[0] == b[0] && IsSubsequence(a[1..], b[1..]) {
        SubsequenceTransitive(a[1..], b[1..], c[1..]);
      } else {
        SubsequenceTransitive(a, b[1..], c[1..]);
      }
    }
  }

  /** The Ids of the entries, in entry order. */
  function IdsOf(entries: seq<Entry>): (ids: seq<Id>)
    ensures |ids| == |entries|
    ensures forall i :: 0 <= i < |entries| ==> ids[i] == entries[i].id
  {
    seq(|entries|, i requires 0 <= i < |entries| => entries[i].id)
  }

  /** The entries whose Id failed, in their order (sqs_batch_send.py:100): the working set of the next attempt. */
  function Retained(entries: seq<Entry>, failed: set<Id>): (r: seq<Entry>)
    ensures IsSubsequence(r, entries)
    ensures forall e :: e in r <==> e in entries && e.id in failed
    ensures failed == {} ==> r == []
  {
    if entries == [] then []
    else
      assert entries == [entries[0]] + entries[1..];
      if entries[0].id in failed then [entries[0]] + Retained(entries[1..], failed)
      else Retained(entries[1..], failed)
  }

  /**
   * The Ids of the entries not reported as failed (sqs_batch_send.py:93): the Ids that
   * succeeded on an attempt, in entry order; together with Retained they
   * account for every entry.
   */
  function SucceededIds(entries: seq<Entry>, failed: set<Id>): (ids: seq<Id>)
    ensures IsSubsequence(ids, IdsOf(entries))
    ensures forall id :: id in ids <==> id in IdsOf(entries) && id !in failed
    ensures |ids| + |Retained(entries, failed)| == |entries|
  {
    if entries == [] then []
    else
      assert entries == [entries[0]] + entries[1..];
      assert IdsOf(entries) == [entries[0].id] + IdsOf(entries[1..]);
      if entries[0].id !in failed then [entries[0].id] + SucceededIds(entries[1..], failed)
      else SucceededIds(entries[1..], failed)
  }

  /** How the loop goes on after an attempt. */
  datatype Flow =
    | Retry(next: seq<Entry>)   // on to the next attempt (if any) with these entries
    | Finished                  // break: nothing failed
    | Propagate(error: Error)   // re-raise: an exception on the final attempt

  datatype Step = Step(record: AttemptRecord, flow: Flow)

  /**
   * Attempt number `attempt` out of `last` of the retry loop, sending `entries`,
   * after the attempts in `history`.
   */
  function Attempt(env: Env, history: seq<AttemptRecord>, entries: seq<Entry>, attempt: nat, last: int): (s: Step)
    requires 1 <= attempt <= last
    // the attempt is one send_message_batch call
    ensures s.record.sent == entries && s.record.reply == env.transport(history, entries)
    // an exception comes from the transport, or from on_success
    ensures s.record.raised <==>
              s.record.reply.TransportError? ||
              (env.onSuccess.OnSuccess? && s.record.notified.Some? && env.onSuccess.raises(history, s.record.notified.value))
    // on_success is called when configured and some Id succeeded, with exactly those Ids
    ensures s.record.notified.Some? <==>
              env.onSuccess.OnSuccess? && s.record.reply.Delivered? && SucceededIds(entries, s.record.reply.failed) != []
    ensures s.record.notified.Some? ==> s.record.notified.value == SucceededIds(entries, s.record.reply.failed)
    // the backoff pause follows only a normal return that left entries to retry
    ensures s.record.pause.Some? <==>
              !s.record.raised && s.record.reply.Delivered? && Retained(entries, s.record.reply.failed) != []
    ensures s.record.pause.Some? ==> s.record.pause.value == attempt - 1
    // the loop stops when nothing failed; it re-raises only on the final attempt
    ensures s.flow.Finished? <==> !s.record.raised && s.record.reply.Delivered? && s.record.reply.failed == {}
    ensures s.flow.Propagate? <==> s.record.raised && attempt == last
    ensures s.flow.Propagate? ==>
              s.flow.error == if s.record.reply.TransportError? then TransportFailure else CallbackFailure
    // an exception retries the same entries, a partial failure the failed ones
    ensures s.flow.Retry? ==> s.flow.next == if s.record.raised then entries else Retained(entries, s.record.reply.failed)
  {
    var reply := env.transport(history, entries);
    match reply
    case TransportError =>
      Step(AttemptRecord(entries, reply, None, true, None),
           if attempt == last then Propagate(TransportFailure) else Retry(entries))
    case Delivered(failed) =>
      var successful := SucceededIds(entries, failed);
      var notified := if env.onSuccess.OnSuccess? && successful != [] then Some(successful) else None;
      if notified.Some? && env.onSuccess.raises(history, successful) then
        Step(AttemptRecord(entries, reply, notified, true, None),
             if attempt == last then Propagate(CallbackFailure) else Retry(entries))
      else if failed == {} then
        Step(AttemptRecord(entries, reply, notified, false, None), Finished)
      else
        var rest := Retained(entries, failed);
        Step(AttemptRecord(entries, reply, notified, false, if rest != [] then Some(attempt - 1) else None),
             Retry(rest))
  }

  /**
   * Attempts number `attempt` up to `last` of the retry loop, starting with
   * `entries` after the attempts in `history`.
   */
  function RunAttempts(env: Env, history: seq<AttemptRecord>, entries: seq<Entry>, attempt: nat, last: int): (t: Trace)
    requires 1 <= attempt
    ensures attempt > last ==> t == Trace([], Ok)
    ensures t.status.Raised? ==> t.records != [] && t.records[|t.records| - 1].raised
    decreases last - attempt + 1
  {
    if attempt > last then Trace([], Ok)
    else
      var step := Attempt(env, history, entries, attempt, last);
      match step.flow
      case Finished => Trace([step.record], Ok)
      case Propagate(e) => Trace([step.record], Raised(e))
      case Retry(next) =>
        var rest := RunAttempts(env, history + [step.record], next, attempt + 1, last);
        Trace([step.record] + rest.records, rest.status)
  }

  /**
   * What flush does with a batch: nothing when it is empty or max_retries is
   * negative, else up to max_retries + 1 attempts.
   */
  function FlushTrace(env: Env, history: seq<AttemptRecord>, batch: seq<Entry>, maxRetries: int): (t: Trace)
    ensures batch == [] || maxRetries < 0 ==> t == Trace([], Ok)
    ensures t.status.Raised? ==> t.records != [] && t.records[|t.records| - 1].raised
  {
    if batch == [] then Trace([], Ok) else RunAttempts(env, history, batch, 1, maxRetries + 1)
  }

  /**
   * The loop makes at most one attempt per remaining attempt number, starts
   * with the given entries, and an exception escapes only from the final attempt.
   */
  lemma {:induction false} AttemptBound(env: Env, history: seq<AttemptRecord>, entries: seq<Entry>, attempt: nat, last: int)
    requires 1 <= attempt
    ensures var t := RunAttempts(env, history, entries, attempt, last);
      && |t.records| <= (if attempt <= last then last - attempt + 1 else 0)
      && (attempt <= last ==> t.records != [] && t.records[0].sent == entries)
      && (t.status.Raised? ==> attempt + |t.records| - 1 == last && t.records[|t.records| - 1].raised)
    decreases last - attempt + 1
  {
    if attempt <= last {
      var step := Attempt(env, history, entries, attempt, last);
      if step.flow.Retry? {
        AttemptBound(env, history + [step.record], step.flow.next, attempt + 1, last);
      }
    }
  }

  /** How the status of the loop follows from the way its last attempt went on. */
  predicate EndsWith(flow: Flow, status: Status, final: bool)
  {
    match flow
    case Finished => status == Ok
    case Propagate(e) => status == Raised(e)
    case Retry(_) => final && status == Ok
  }

  /** The first record of the loop is the first attempt, and it ends or continues the loop as the status says. */
  lemma FirstRecordIsAttempt(env: Env, history: seq<AttemptRecord>, entries: seq<Entry>, attempt: nat, last: int)
    requires 1 <= attempt <= last
    ensures var t := RunAttempts(env, history, entries, attempt, last);
      var s := Attempt(env, history, entries, attempt, last);
      && t.records != [] && s.record == t.records[0]
      && (1 < |t.records| ==> s.flow == Retry(t.records[1].sent))
      && (1 == |t.records| ==> EndsWith(s.flow, t.status, attempt == last))
  {
    var step := Attempt(env, history, entries, attempt, last);
    if step.flow.Retry? {
      AttemptBound(env, history + [step.record], step.flow.next, attempt + 1, last);
    }
  }

  /**
   * Record `i` of the trace `t` is attempt number `attempt + i` on the entries
   * it sent, made after the history and the records before it; it continued
   * the loop with what the next record sent or, as the last, ended it as the
   * status says.
   */
  predicate RecordFollows(env: Env, history: seq<AttemptRecord>, t: Trace, attempt: nat, last: int, i: nat)
  {
    && 1 <= attempt && attempt + i <= last && i < |t.records|
    && var s := Attempt(env, history + t.records[..i], t.records[i].sent, attempt + i, last);
    && s.record == t.records[i]
    && (i + 1 < |t.records| ==> s.flow == Retry(t.records[i + 1].sent))
    && (i + 1 == |t.records| ==> EndsWith(s.flow, t.status, attempt + i == last))
  }

  /** A trace that starts with one more record shifts every later record's position by one. */
  lemma RecordFollowsShift(env: Env, history: seq<AttemptRecord>, t: Trace, rest: Trace, attempt: nat, last: int, i: nat)
    requires 1 <= attempt && 0 < i && t.records != []
    requires t.records == [t.records[0]] + rest.records && t.status == rest.status
    requires RecordFollows(env, history + [t.records[0]], rest, attempt + 1, last, i - 1)
    ensures RecordFollows(env, history, t, attempt, last, i)
  {
    assert t.records[..i] == [t.records[0]] + rest.records[..i - 1];
    assert history + t.records[..i] == history + [t.records[0]] + rest.records[..i - 1];
    assert t.records[i] == rest.records[i - 1];
    assert i + 1 < |t.records| ==> t.records[i + 1] == rest.records[i];
  }

  /**
   * Every record of the loop is the attempt Attempt describes, numbered in
   * turn, made after the records before it; every record but the last
   * continued the loop with the entries the next record sent; the last one
   * ended the loop as the status says.
   */
  lemma {:induction false} RecordIsAttempt(env: Env, history: seq<AttemptRecord>, entries: seq<Entry>, attempt: nat, last: int, i: nat)
    requires 1 <= attempt
    requires i < |RunAttempts(env, history, entries, attempt, last).records|
    ensures RecordFollows(env, history, RunAttempts(env, history, entries, attempt, last), attempt, last, i)
    decreases i
  {
    var t := RunAttempts(env, history, entries, attempt, last);
    assert attempt <= last;
    if i == 0 {
      FirstRecordIsAttempt(env, history, entries, attempt, last);
      AttemptBound(env, history, entries, attempt, last);
      assert history + t.records[..0] == history;
    } else {
      var step := Attempt(env, history, entries, attempt, last);
      assert step.flow.Retry?;
      var rest := RunAttempts(env, history + [step.record], step.flow.next, attempt + 1, last);
      assert t.records == [step.record] + rest.records;
      RecordIsAttempt(env, history + [step.record], step.flow.next, attempt + 1, last, i - 1);
      RecordFollowsShift(env, history, t, rest, attempt, last, i);
    }
  }

  /**
   * Narrowing: each attempt after the first sends an order-preserving
   * selection of what the attempt before it sent, and so of the batch itself.
   */
  lemma Narrowing(env: Env, history: seq<AttemptRecord>, entries: seq<Entry>, attempt: nat, last: int)
    requires 1 <= attempt
    ensures var t := RunAttempts(env, history, entries, attempt, last);
      && (forall i :: 0 < i < |t.records| ==> IsSubsequence(t.records[i].sent, t.records[i - 1].sent))
      && (forall i :: 0 <= i < |t.records| ==> IsSubsequence(t.records[i].sent, entries))
  {
    var t := RunAttempts(env, history, entries, attempt, last);
    forall i | 0 < i < |t.records|
      ensures IsSubsequence(t.records[i].sent, t.records[i - 1].sent)
    {
      RecordIsAttempt(env, history, entries, attempt, last, i - 1);
      SubsequenceReflexive(t.records[i - 1].sent);
    }
    if t.records != [] {
      AttemptBound(env, history, entries, attempt, last);
      var i := 0;
      SubsequenceReflexive(entries);
      while i < |t.records|
        invariant 0 <= i <= |t.records|
        invariant forall j :: 0 <= j < i ==> IsSubsequence(t.records[j].sent, entries)
      {
        if i > 0 {
          SubsequenceTransitive(t.records[i].sent, t.records[i - 1].sent, entries);
        }
        i := i + 1;
      }
    }
  }

  /**
   * The loop ends early only by a break: when it made fewer than all its
   * attempts, the last one returned normally with an empty "Failed" list.
   */
  lemma StopsOnlyWhenNothingFailed(env: Env, history: seq<AttemptRecord>, entries: seq<Entry>, attempt: nat, last: int)
    requires 1 <= attempt <= last
    ensures var t := RunAttempts(env, history, entries, attempt, last);
      var n := |t.records|;
      n > 0 && (attempt + n - 1 < last ==>
                  t.status == Ok && !t.records[n - 1].raised &&
                  t.records[n - 1].reply == Delivered({}))
  {
    var t := RunAttempts(env, history, entries, attempt, last);
    AttemptBound(env, history, entries, attempt, last);
    RecordIsAttempt(env, history, entries, attempt, last, |t.records| - 1);
  }

  /**
   * A flush of a non-empty batch makes at most max_retries + 1 send calls
   * (none when max_retries + 1 <= 0), its first call sends the whole batch,
   * and it raises only after the full number of attempts; an empty batch makes none.
   */
  lemma FlushAttemptBound(env: Env, history: seq<AttemptRecord>, batch: seq<Entry>, maxRetries: int)
    ensures var t := FlushTrace(env, history, batch, maxRetries);
      && |t.records| <= (if maxRetries + 1 >= 1 then maxRetries + 1 else 0)
      && (batch == [] ==> t == Trace([], Ok))
      && (batch != [] && maxRetries >= 0 ==> t.records != [] && t.records[0].sent == batch)
      && (t.status.Raised? ==> |t.records| == maxRetries + 1)
  {
    if batch != [] {
      AttemptBound(env, history, batch, 1, maxRetries + 1);
    }
  }

  /**
   * A partial failure followed by success: entry "x" fails on the first
   * attempt and goes through on the second, so on_success is called twice,
   * first with the other Id only and then with "x" only, with one pause between.
   */
  lemma PartialFailureScenario(x: Entry, y: Entry)
    requires x.id == "x" && y.id == "y"
    ensures var env := Env((h: seq<AttemptRecord>, es: seq<Entry>) => if h == [] then Delivered({"x"}) else Delivered({}),
                           OnSuccess((h: seq<AttemptRecord>, ids: seq<Id>) => false));
      var t := FlushTrace(env, [], [x, y], 3);
      && t.status == Ok && |t.records| == 2
      && t.records[0].sent == [x, y] && t.records[0].notified == Some(["y"]) && t.records[0].pause == Some(0)
      && t.records[1].sent == [x] && t.records[1].notified == Some(["x"]) && t.records[1].pause == None
  {
    var env := Env((h: seq<AttemptRecord>, es: seq<Entry>) => if h == [] then Delivered({"x"}) else Delivered({}),
                   OnSuccess((h: seq<AttemptRecord>, ids: seq<Id>) => false));
    assert SucceededIds([x, y], {"x"}) == ["y"] by {
      assert [x, y][1..] == [y];
      assert [y][1..] == [];
    }
    assert Retained([x, y], {"x"}) == [x] by {
      assert [x, y][1..] == [y];
      assert [y][1..] == [];
    }
    assert SucceededIds([x], {}) == ["x"] by {
      assert [x][1..] == [];
    }
    var s1 := Attempt(env, [], [x, y], 1, 4);
    assert s1.flow == Retry([x]);
    var s2 := Attempt(env, [s1.record], [x], 2, 4);
    assert s2.flow == Finished;
  }

  /**
   * An entry the queue rejects on every attempt: with max_retries = 1 the
   * loop makes two calls, still pauses after the final one, and then ends
   * normally; the entry is dropped without an error.
   */
  lemma ExhaustedPartialFailureScenario(x: Entry)
    ensures var env := Env((h: seq<AttemptRecord>, es: seq<Entry>) => Delivered({x.id}), NoCallback);
      var t := FlushTrace(env, [], [x], 1);
      && t.status == Ok && |t.records| == 2
      && t.records[0].sent == [x] && t.records[1].sent == [x]
      && t.records[0].pause == Some(0) && t.records[1].pause == Some(1)
  {
    var env := Env((h: seq<AttemptRecord>, es: seq<Entry>) => Delivered({x.id}), NoCallback);
    assert Retained([x], {x.id}) == [x] by {
      assert [x][1..] == [];
    }
    var s1 := Attempt(env, [], [x], 1, 2);
    assert s1.flow == Retry([x]);
  }

  /**
   * With max_retries = 0 a transport exception on the only attempt
   * propagates out of flush after exactly one call.
   */
  lemma SingleAttemptExceptionScenario(batch: seq<Entry>, onSuccess: Callback)
    requires batch != []
    ensures var env := Env((h: seq<AttemptRecord>, es: seq<Entry>) => TransportError, onSuccess);
      var t := FlushTrace(env, [], batch, 0);
      t.status == Raised(TransportFailure) && |t.records| == 1 && t.records[0].sent == batch
  {
  }
}
