/**
 * SQSBatcher: a client-side buffer for SQS SendMessageBatch calls that
 * flushes on a count or size limit, retries failed entries, and flushes on
 * scope exit.
 */
module SqsBatcher {
  import opened Wrappers
  import opened SqsSize
  import opened SqsTypes
  import opened SqsRetry

  const MIN_BATCH_COUNT: int := 1
  const MAX_BATCH_COUNT: int := 10
  const MIN_BATCH_SIZE: int := 1
  const MAX_BATCH_SIZE: int := 1_048_576

  /**
   * The constructor's validation: max_batch_count is checked first, then
   * max_batch_size_bytes; None means both are in range.
   */
  function ConfigError(maxBatchCount: int, maxBatchSizeBytes: int): (r: Option<Error>)
    ensures r.None? <==>
              MIN_BATCH_COUNT <= maxBatchCount <= MAX_BATCH_COUNT && MIN_BATCH_SIZE <= maxBatchSizeBytes <= MAX_BATCH_SIZE
    ensures r == Some(InvalidBatchCount) <==> !(MIN_BATCH_COUNT <= maxBatchCount <= MAX_BATCH_COUNT)
    ensures r == Some(InvalidBatchSize) <==>
              MIN_BATCH_COUNT <= maxBatchCount <= MAX_BATCH_COUNT && !(MIN_BATCH_SIZE <= maxBatchSizeBytes <= MAX_BATCH_SIZE)
  {
    if !(MIN_BATCH_COUNT <= maxBatchCount <= MAX_BATCH_COUNT) then Some(InvalidBatchCount)
    else if !(MIN_BATCH_SIZE <= maxBatchSizeBytes <= MAX_BATCH_SIZE) then Some(InvalidBatchSize)
    else None
  }

  /** The sum of the estimates of the entries: what _batch_size must equal. */
  function BatchSize(batch: seq<Entry>): nat
  {
    if batch == [] then 0
    else BatchSize(batch[..|batch| - 1]) + MessageSize(batch[|batch| - 1].body, batch[|batch| - 1].attributes)
  }

  /** add_message flushes first when the batch is full or the new estimate would overflow it. */
  predicate FlushesFirst(batchLength: nat, batchSize: int, messageSize: nat, maxBatchCount: int, maxBatchSizeBytes: int)
  {
    batchLength >= maxBatchCount || batchSize + messageSize > maxBatchSizeBytes
  }

  /** A message Id that counts as absent: None or the empty string. */
  predicate IsFalsy(messageId: Option<Id>)
  {
    messageId.None? || messageId.value == ""
  }

  class Batcher {
    const queueUrl: string
    const maxBatchCount: int
    const maxBatchSizeBytes: int
    /** Not validated by the source: a negative value leaves flush no attempt at all. */
    const maxRetries: int
    const env: Env
    /** The Id generator, uuid4().hex[:80]: the n-th Id it hands out. */
    const generateId: nat -> Id

    var batch: seq<Entry>
    var batchSize: int
    /** Every attempt of every flush so far: the calls the transport and on_success saw. */
    var log: seq<AttemptRecord>
    /** How many Ids the generator has handed out. */
    var idsGenerated: nat

    /**
     * The invariant: the configuration is in range, _batch_size is the sum of
     * the entries' estimates, the count limit holds, and the size limit holds
     * unless the batch is a single oversized entry.
     */
    ghost predicate Valid()
      reads this
    {
      && ConfigError(maxBatchCount, maxBatchSizeBytes).None?
      && batchSize == BatchSize(batch)
      && |batch| <= maxBatchCount
      && (batchSize <= maxBatchSizeBytes || |batch| == 1)
      && (forall e :: e in batch ==> |e.attributes| <= MAX_ATTRIBUTES)
    }

    constructor (queueUrl: string, maxBatchCount: int, maxBatchSizeBytes: int, maxRetries: int,
                 env: Env, generateId: nat -> Id)
      requires ConfigError(maxBatchCount, maxBatchSizeBytes).None?
      ensures Valid()
      ensures this.queueUrl == queueUrl && this.maxBatchCount == maxBatchCount
      ensures this.maxBatchSizeBytes == maxBatchSizeBytes && this.maxRetries == maxRetries
      ensures this.env == env && this.generateId == generateId
      ensures batch == [] && batchSize == 0 && log == [] && idsGenerated == 0
    {
      this.queueUrl := queueUrl;
      this.maxBatchCount := maxBatchCount;
      this.maxBatchSizeBytes := maxBatchSizeBytes;
      this.maxRetries := maxRetries;
      this.env := env;
      this.generateId := generateId;
      batch := [];
      batchSize := 0;
      log := [];
      idsGenerated := 0;
    }

    /** SQSBatcher(...): raises ValueError unless both limits are in range. */
    static method Create(queueUrl: string, maxBatchCount: int, maxBatchSizeBytes: int, maxRetries: int,
                         env: Env, generateId: nat -> Id) returns (r: Result<Batcher, Error>)
      ensures r.Failure? <==> ConfigError(maxBatchCount, maxBatchSizeBytes).Some?
      ensures r.Failure? ==> r.error == ConfigError(maxBatchCount, maxBatchSizeBytes).value
      ensures r.Success? ==>
                && fresh(r.value) && r.value.Valid()
                && r.value.queueUrl == queueUrl && r.value.maxBatchCount == maxBatchCount
                && r.value.maxBatchSizeBytes == maxBatchSizeBytes && r.value.maxRetries == maxRetries
                && r.value.env == env && r.value.generateId == generateId
                && r.value.batch == [] && r.value.batchSize == 0 && r.value.log == [] && r.value.idsGenerated == 0
    {
      var error := ConfigError(maxBatchCount, maxBatchSizeBytes);
      if error.Some? {
        return Failure(error.value);
      }
      var b := new Batcher(queueUrl, maxBatchCount, maxBatchSizeBytes, maxRetries, env, generateId);
      return Success(b);
    }

    /**
     * The body of the try statement in flush's loop, and its else clause:
     * one send_message_batch call, the on_success call, and the backoff pause.
     * It records the attempt and says how the loop goes on.
     */
    method TryAttempt(entries: seq<Entry>, attempt: nat, last: int) returns (step: Step)
      requires 1 <= attempt <= last
      modifies this`log
      ensures step == Attempt(env, old(log), entries, attempt, last)
      ensures log == old(log) + [step.record]
    {
      var reply := env.transport(log, entries);
      if reply.TransportError? {
        step := Step(AttemptRecord(entries, reply, None, true, None),
                     if attempt == last then Propagate(TransportFailure) else Retry(entries));
      } else {
        var failed := reply.failed;
        var successful := SucceededIds(entries, failed);
        var notified: Option<seq<Id>> := None;
        var raised := false;
        if env.onSuccess.OnSuccess? && successful != [] {
          notified := Some(successful);
          raised := env.onSuccess.raises(log, successful);
        }
        if raised {
          step := Step(AttemptRecord(entries, reply, notified, true, None),
                       if attempt == last then Propagate(CallbackFailure) else Retry(entries));
        } else if failed == {} {
          step := Step(AttemptRecord(entries, reply, notified, false, None), Finished);
        } else {
          var next := Retained(entries, failed);
          var pause: Option<nat> := None;
          if next != [] {
            // the backoff pause of sqs_batch_send.py:106, with exponent attempt - 1
            pause := Some(attempt - 1);
          }
          step := Step(AttemptRecord(entries, reply, notified, false, pause), Retry(next));
        }
      }
      log := log + [step.record];
    }

    /**
     * The retry loop of flush, attempts 1 to max_retries + 1 (sqs_batch_send.py:89), on
     * the entries still to send: it only adds the attempts it makes to the log.
     */
    method RetryLoop(entries: seq<Entry>, last: int) returns (status: Status)
      modifies this`log
      ensures var t := RunAttempts(env, old(log), entries, 1, last);
        log == old(log) + t.records && status == t.status
    {
      ghost var goal := RunAttempts(env, log, entries, 1, last);
      var pending := entries;
      var attempt: nat := 1;
      while attempt <= last
        invariant 1 <= attempt
        invariant var rest := RunAttempts(env, log, pending, attempt, last);
          log + rest.records == old(log) + goal.records && rest.status == goal.status
        decreases last - attempt + 1
      {
        ghost var before := log;
        var step := TryAttempt(pending, attempt, last);
        assert before + [step.record] == log;
        match step.flow {
          case Propagate(error) =>
            return Raised(error);
          case Finished =>
            return Ok;
          case Retry(next) =>
            ghost var rest := RunAttempts(env, log, next, attempt + 1, last);
            assert before + ([step.record] + rest.records) == log + rest.records;
            pending := next;
        }
        attempt := attempt + 1;
      }
      return Ok;
    }

    /**
     * flush: nothing on an empty batch; otherwise the retry loop, and on a
     * normal return the batch is cleared. When the final attempt raises, the
     * error propagates and the batch is left as it was.
     */
    method Flush() returns (status: Status)
      requires Valid()
      modifies this
      ensures Valid()
      ensures var t := FlushTrace(env, old(log), old(batch), maxRetries);
        && log == old(log) + t.records && status == t.status
        && (status.Ok? ==> batch == [] && batchSize == 0)
        && (status.Raised? ==> batch == old(batch) && batchSize == old(batchSize))
      ensures idsGenerated == old(idsGenerated)
    {
      if batch == [] {
        return Ok;
      }
      status := RetryLoop(batch, maxRetries + 1);
      if status.Ok? {
        batch := [];
        batchSize := 0;
      }
    }

    /**
     * add_message: more than ten attributes raise ValueError and change
     * nothing. Otherwise the estimate is computed, the batch is flushed first
     * when FlushesFirst holds, and, unless that flush raised, the entry is
     * appended at the end and its estimate added to _batch_size.
     */
    method AddMessage(body: Bytes, attributes: seq<Attribute>, messageId: Option<Id>, extra: map<string, string>)
      returns (status: Status)
      requires Valid()
      modifies this
      ensures Valid()
      ensures |attributes| > MAX_ATTRIBUTES ==>
                && status == Raised(TooManyAttributes)
                && batch == old(batch) && batchSize == old(batchSize)
                && log == old(log) && idsGenerated == old(idsGenerated)
      ensures |attributes| <= MAX_ATTRIBUTES ==>
                var size := MessageSize(body, attributes);
                var flushFirst := FlushesFirst(|old(batch)|, old(batchSize), size, maxBatchCount, maxBatchSizeBytes);
                var t := if flushFirst then FlushTrace(env, old(log), old(batch), maxRetries) else Trace([], Ok);
                && log == old(log) + t.records && status == t.status
                && (status.Raised? ==>
                      batch == old(batch) && batchSize == old(batchSize) && idsGenerated == old(idsGenerated))
                && (status.Ok? ==>
                      var id := if IsFalsy(messageId) then generateId(old(idsGenerated)) else messageId.value;
                      && batch == (if flushFirst then [] else old(batch)) + [Entry(id, body, attributes, extra)]
                      && batchSize == (if flushFirst then 0 else old(batchSize)) + size
                      && idsGenerated == old(idsGenerated) + (if IsFalsy(messageId) then 1 else 0))
    {
      if |attributes| > MAX_ATTRIBUTES {
        return Raised(TooManyAttributes);
      }
      var size := EstimateMessageSize(body, attributes);
      ghost var flushFirst := FlushesFirst(|batch|, batchSize, size, maxBatchCount, maxBatchSizeBytes);
      if |batch| >= maxBatchCount || batchSize + size > maxBatchSizeBytes {
        status := Flush();
        if status.Raised? {
          return;
        }
        assert batch == [] && batchSize == 0;
      } else {
        status := Ok;
        assert |batch| < maxBatchCount && batchSize + size <= maxBatchSizeBytes;
      }
      var id: Id;
      if IsFalsy(messageId) {
        id := generateId(idsGenerated);
        idsGenerated := idsGenerated + 1;
      } else {
        id := messageId.value;
      }
      var entry := Entry(id, body, attributes, extra);
      AppendEntry(entry);
      assert flushFirst ==> |batch| == 1;
    }

    /** Appends the entry to the batch and adds its estimate to the running size (sqs_batch_send.py:80-81). */
    method AppendEntry(entry: Entry)
      modifies this`batch, this`batchSize
      ensures batch == old(batch) + [entry]
      ensures batchSize == old(batchSize) + MessageSize(entry.body, entry.attributes)
      ensures old(batchSize) == BatchSize(old(batch)) ==> batchSize == BatchSize(batch)
    {
      assert (batch + [entry])[..|batch + [entry]| - 1] == batch;
      batch := batch + [entry];
      batchSize := batchSize + MessageSize(entry.body, entry.attributes);
    }

    /**
     * __exit__: flushes when the batch is non-empty and returns False, so the
     * scope's own outcome `inScope` propagates unchanged; an error raised by
     * that flush propagates instead.
     */
    method Exit(inScope: Status) returns (status: Status)
      requires Valid()
      modifies this
      ensures Valid()
      ensures old(batch) == [] ==> status == inScope && log == old(log) && batch == old(batch)
      ensures var t := FlushTrace(env, old(log), old(batch), maxRetries);
        && log == old(log) + t.records
        && status == (if t.status.Raised? then t.status else inScope)
        && (t.status.Ok? ==> batch == [] && batchSize == 0)
        && (t.status.Raised? ==> batch == old(batch) && batchSize == old(batchSize))
      ensures idsGenerated == old(idsGenerated)
    {
      status := inScope;
      if batch != [] {
        var flushed := Flush();
        if flushed.Raised? {
          status := flushed;
        }
      }
    }
  }

  /** A transport that accepts every entry. */
  function AcceptAll(): Env
  {
    Env((h: seq<AttemptRecord>, es: seq<Entry>) => Delivered({}), NoCallback)
  }

  /** With every entry delivered and no callback, a flush of a non-empty batch is one send call. */
  lemma AcceptAllSendsOnce(history: seq<AttemptRecord>, batch: seq<Entry>, maxRetries: int)
    requires batch != [] && maxRetries >= 0
    ensures FlushTrace(AcceptAll(), history, batch, maxRetries) == Trace([AttemptRecord(batch, Delivered({}), None, false, None)], Ok)
  {
    var step := Attempt(AcceptAll(), history, batch, 1, maxRetries + 1);
    assert step.flow == Finished;
  }

  /**
   * max_batch_count = 1: the second add_message sends the first entry alone
   * in one call, and the batch then holds the second.
   */
  method CountLimitScenario()
  {
    var b := new Batcher("url", 1, MAX_BATCH_SIZE, 3, AcceptAll(), (n: nat) => "generated");
    var first := b.AddMessage(Ascii("a"), [], None, map[]);
    assert first == Ok && b.log == [] && b.batch == [Entry("generated", Ascii("a"), [], map[])];
    AcceptAllSendsOnce(b.log, b.batch, 3);
    var second := b.AddMessage(Ascii("b"), [], Some("2"), map[]);
    assert second == Ok && |b.log| == 1 && b.log[0].sent == [Entry("generated", Ascii("a"), [], map[])];
    assert b.batch == [Entry("2", Ascii("b"), [], map[])];
  }

  /**
   * max_batch_size_bytes = 5: a body of five bytes fills the batch, so adding
   * a one-byte body flushes the first entry before accepting the second.
   */
  method SizeLimitScenario()
  {
    var b := new Batcher("url", MAX_BATCH_COUNT, 5, 3, AcceptAll(), (n: nat) => "generated");
    var first := b.AddMessage(Ascii("12345"), [], Some("1"), map[]);
    assert first == Ok && b.batchSize == 5 && b.log == [];
    AcceptAllSendsOnce(b.log, b.batch, 3);
    var second := b.AddMessage(Ascii("6"), [], Some("2"), map[]);
    assert second == Ok && |b.log| == 1 && b.log[0].sent == [Entry("1", Ascii("12345"), [], map[])];
    assert b.batch == [Entry("2", Ascii("6"), [], map[])] && b.batchSize == 1;
  }
}
