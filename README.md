# SQS batch sending and cached STS role sessions, modelled in Dafny

This project models two components of aws-python-boto-tools and proves properties of the models.

**`SQSBatcher`** (`src/sqs_batch_send.py`) is a client-side buffer for SQS `SendMessageBatch`.
- The constructor accepts `max_batch_count` only in 1..10 and `max_batch_size_bytes` only in 1..1 048 576.
- `add_message` refuses more than ten attributes. It estimates the message's size, flushes first when the batch is full or would overflow, then appends the entry.
- `flush` sends the batch with up to `max_retries + 1` attempts:
  - a partial failure retries only the failed Ids;
  - an exception retries the same entries, and is re-raised on the final attempt;
  - `on_success`, when set, is called with each attempt's own successful Ids, when there are any. It is not called after a transport exception.
- `__exit__` flushes a non-empty batch and never suppresses the scope's own exception.

Files:
- `sqs_size.dfy`: the size estimate, as a specification function and as the looping method of the source.
- `sqs_types.dfy`: entries, errors, and the SQS client and `on_success` as oracles.
- `sqs_retry.dfy`: one attempt of the retry loop and the whole loop as functions, with the lemmas about them.
- `sqs_batcher.dfy`: the `Batcher` class. Its methods are proved against those functions.

**The STS session cache** (`src/aws_python_boto_tools/sts_assume_role.py`) is an `OrderedDict` keyed by (target role, session name, intermediate role). It is bounded by `_MAX_CACHE_SIZE`.
- `get_session` reads the clock once.
- A fresh hit (expiry strictly later than now) returns the cached session and marks it most recently used.
- An expired entry is removed.
- With a truthy intermediate role, the intermediate session comes from a recursive `get_session` call.
- The target role is then assumed from that session, from the session passed in, or from a default one.
- The result is stored, and least-recently-used entries are popped until the cache is within the bound.
- `configure_cache` only changes the bound.

`sts_cache.dfy` holds the whole cache:
- a pure definition, `GetSessionOutcome`, over a `CacheState` (the keys oldest first, plus a map), with the lemmas;
- the class `SessionCache`, whose fields the methods update and whose `GetSession` is proved to follow that definition.

`wrappers.dfy` holds `Option` and `Result`.

Oracles stand for what the code cannot see:
- The SQS transport's reply depends on the attempts made before it and on the entries sent.
- `on_success` is a predicate saying whether a call raises.
- The Id generator gives the n-th generated Id.
- `time.time()` gives the value of its n-th reading.
- The assume-role call gives a session and its expiry, or a failure, depending on the earlier requests.

A pause `k` in an attempt record stands for the sleep of `backoff_factor` times 2 to the power `k` seconds.

Behaviour of the code a caller may not expect, modelled as written:
- A `flush` that re-raises an exception does not clear the batch. The error leaves the loop before `_batch.clear()`.
- An oversized first message calls `flush` on the empty batch, and that call does nothing.
- Ids are not unique within a batch: a caller may pass the same `message_id` twice. No uniqueness is claimed.
- `max_retries` is not validated. A negative value means no attempt at all, and the batch is cleared.
- After the final attempt, entries that still fail are dropped silently: `flush` returns normally and clears the batch. It also still sleeps after that final attempt when entries remain.
- A negative cache bound is not validated. The next insert pops every entry and then raises `KeyError` from `popitem` on the empty cache. This is modelled as `EmptyCacheEviction`, with the cache left empty.

## Model

| member | source | states |
|---|---|---|
| SqsSize.AttributesSize | src/sqs_batch_send.py:119-135 | the attributes add at least 50 bytes of overhead each |
| SqsSize.MessageSize | src/sqs_batch_send.py:117-136 | the estimate is at least the body length plus 50 per attribute; with no attributes it is exactly the body's UTF-8 length |
| SqsSize.EstimateMessageSize | src/sqs_batch_send.py:117-136 | the loop over the attributes, with inner loops over list values, computes exactly MessageSize: body length plus, per attribute, name, DataType, the first value key present (StringValue, BinaryValue, StringListValues, BinaryListValues) and 50 |
| SqsSize.AttributesSizeAppend | src/sqs_batch_send.py:119-135 | the attribute part of the estimate is additive over a split of the attributes |
| SqsSize.AttributesSizePermutation | src/sqs_batch_send.py:119 | the estimate does not depend on the order in which the attribute dictionary is iterated: any permutation gives the same size |
| SqsSize.EstimateExamples | tests/test_sqs_batch_send.py:54-79 | "hello" with no attributes is 5; a String attribute a=b on "hi" gives 2+1+6+1+50; a Binary attribute of two bytes gives 2+3+6+2+50 |
| SqsBatcher.ConfigError | src/sqs_batch_send.py:27-30 | no error exactly when 1 <= max_batch_count <= 10 and 1 <= max_batch_size_bytes <= 1 048 576; the count is checked first, and the size error only when the count is valid |
| SqsBatcher.Batcher.constructor | src/sqs_batch_send.py:16-41 | with valid limits the batcher keeps the configuration, starts with an empty batch of size 0, and satisfies the batch invariant |
| SqsBatcher.Batcher.Create | src/sqs_batch_send.py:27-41 | fails exactly when ConfigError reports an error, with that error; otherwise gives a fresh, valid, empty batcher with the given configuration |
| SqsRetry.Retained | src/sqs_batch_send.py:100 | the next attempt's entries are exactly those in the attempt whose Id failed, in their original order; none when nothing failed |
| SqsRetry.SucceededIds | src/sqs_batch_send.py:93 | exactly the Ids of the entries not failed, in entry order; with Retained they account for every entry |
| SqsRetry.Attempt | src/sqs_batch_send.py:89-106 | one call sends the entries; on_success is called, with exactly the successful Ids, iff it is set and some Id succeeded; an exception comes from the transport or from on_success and is re-raised only on the final attempt, otherwise the same entries are retried; nothing failed ends the loop; a partial failure retries the failed entries and pauses by 2^(attempt-1) only when some remain |
| SqsRetry.RunAttempts | src/sqs_batch_send.py:89-106 | the for loop of flush as a function: an empty range makes no attempt and returns normally, and a raising loop ends with an attempt that raised; its other properties are stated by AttemptBound, FirstRecordIsAttempt, RecordIsAttempt, Narrowing and StopsOnlyWhenNothingFailed |
| SqsRetry.FlushTrace | src/sqs_batch_send.py:83-109 | flush as a function: no attempt and a normal return for an empty batch or a negative max_retries, otherwise the loop from attempt 1 to max_retries + 1; its other properties are stated by FlushAttemptBound, and Batcher.Flush is proved to follow it |
| SqsRetry.AttemptBound | src/sqs_batch_send.py:89-103 | the loop makes at most one call per remaining attempt number, its first call sends the given entries, and it raises only from the final attempt after an exception |
| SqsRetry.FirstRecordIsAttempt | src/sqs_batch_send.py:89-106 | the first record is the first Attempt, and it continues the loop with what the second record sent, or ends it as the status says |
| SqsRetry.RecordIsAttempt | src/sqs_batch_send.py:89-106 | every record is the Attempt with its number, made after the records before it; each record but the last continues with what the next sent, and the last ends the loop as the status says |
| SqsRetry.Narrowing | src/sqs_batch_send.py:89-100 | each attempt sends an order-preserving selection of what the previous attempt sent, and so of the batch |
| SqsRetry.StopsOnlyWhenNothingFailed | src/sqs_batch_send.py:98-99 | a loop that ends before its last attempt ends normally, after a call that returned with no failed Ids |
| SqsRetry.FlushAttemptBound | src/sqs_batch_send.py:85-103 | at most max_retries + 1 calls (none when that is not positive); no call for an empty batch; the first call sends the whole batch; an error escapes only after all max_retries + 1 attempts |
| SqsRetry.PartialFailureScenario | src/sqs_batch_send.py:91-106 | an entry that fails once and then succeeds: two calls, on_success first with the other Id and then with it, one pause |
| SqsRetry.ExhaustedPartialFailureScenario | src/sqs_batch_send.py:89-109 | an entry rejected on every attempt with max_retries = 1: two calls, a pause after each one including the last, and a normal return |
| SqsRetry.SingleAttemptExceptionScenario | src/sqs_batch_send.py:101-103 | with max_retries = 0, a transport exception on the only call propagates out of flush after exactly one call |
| SqsBatcher.Batcher.TryAttempt | src/sqs_batch_send.py:90-106 | one pass of the loop body does exactly what Attempt describes and appends its record to the log |
| SqsBatcher.Batcher.RetryLoop | src/sqs_batch_send.py:88-106 | the for loop makes exactly the attempts of RunAttempts, appends them to the log and ends with its status |
| SqsBatcher.Batcher.Flush | src/sqs_batch_send.py:83-109 | an empty batch makes no call; otherwise the attempts are those of FlushTrace; on a normal return the batch and its size are cleared; when the final attempt raises, the batch is left as it was; the invariant is kept |
| SqsBatcher.Batcher.AddMessage | src/sqs_batch_send.py:58-81 | more than 10 attributes raise and change nothing; otherwise a flush happens first exactly when the batch is full or the new estimate would overflow it; unless that flush raised, the entry (given Id, or the next generated Id when the given one is falsy) is appended and its estimate added; afterwards the batch is within the count, its size is the sum of the estimates, and the size limit holds unless the batch is one oversized entry |
| SqsBatcher.Batcher.AppendEntry | src/sqs_batch_send.py:80-81 | the entry is appended at the end and its estimate added, keeping the size equal to the sum of the estimates |
| SqsBatcher.Batcher.Exit | src/sqs_batch_send.py:47-55 | an empty batch makes no call and the scope's outcome is returned; otherwise the batch is flushed once, and the scope's outcome is returned unless that flush raised |
| SqsBatcher.AcceptAllSendsOnce | tests/test_sqs_batch_send.py:104-118 | with a transport that accepts everything, a flush of a non-empty batch is one call sending the whole batch |
| StsCache.MoveToEnd | src/aws_python_boto_tools/sts_assume_role.py:66 | the key becomes the last (most recent); the same keys remain, with no duplicates and the same length; the others keep their relative order |
| StsCache.KeepNewest | src/aws_python_boto_tools/sts_assume_role.py:94-95 | the keys that remain are a suffix of the order: all of them when within the bound, otherwise exactly the newest max_size (none when the bound is negative) |
| StsCache.Restrict | src/aws_python_boto_tools/sts_assume_role.py:95 | exactly the entries whose keys are kept, with their values |
| StsCache.Forget | src/aws_python_boto_tools/sts_assume_role.py:70 | pop removes the key from the map and the order and changes nothing else |
| StsCache.Store | src/aws_python_boto_tools/sts_assume_role.py:92 | the map gets the new entry; a new key goes last, an existing key keeps its place |
| StsCache.Evict | src/aws_python_boto_tools/sts_assume_role.py:94-95 | afterwards the cache is within the bound (empty when the bound is negative); only the oldest keys are removed, and only as many as needed; a cache within the bound is unchanged; the remaining entries keep their values |
| StsCache.InsertAndEvict | src/aws_python_boto_tools/sts_assume_role.py:92-97 | store then evict; succeeds iff the bound is not negative, otherwise raises with the cache empty; the size is within the bound; only the new key is added; a new key survives as the newest when the bound is at least 1; the newest max_size - 1 old keys survive |
| StsCache.InsertKeepsNewest | src/aws_python_boto_tools/sts_assume_role.py:92-95 | inserting a new key leaves the newest max_size - 1 keys that were there before |
| StsCache.InsertNewKeyLast | src/aws_python_boto_tools/sts_assume_role.py:92-95 | with a bound of at least 1, a new key is cached with its entry as the newest |
| StsCache.AssumeAndStore | src/aws_python_boto_tools/sts_assume_role.py:86-97 | exactly one assume-role request from the given session; a failure raises RuntimeError for the target role and leaves the entries as they were; an assumed session with a non-negative bound is returned; a new key with a bound of at least 1 is cached with that session and its expiry as the newest entry; a success stays within the bound and adds only that key |
| StsCache.Missed | src/aws_python_boto_tools/sts_assume_role.py:60-70 | one clock reading; an expired entry is removed from the map and the order, and nothing else changes: order and map are exactly the old ones without the key |
| StsCache.GetSessionOutcome | src/aws_python_boto_tools/sts_assume_role.py:41-97 | the whole call on a well-formed cache leaves a well-formed cache with the same bound |
| StsCache.Configure | src/aws_python_boto_tools/sts_assume_role.py:33-38 | configure_cache changes only the bound and evicts nothing |
| StsCache.FreshHitReturnsCached | src/aws_python_boto_tools/sts_assume_role.py:64-67 | a fresh hit returns the cached session, makes no assume-role call, keeps every entry, and makes the key the newest without reordering the others |
| StsCache.MissAssumesAndStores | src/aws_python_boto_tools/sts_assume_role.py:64-70 | a missing or expired key without an intermediate role makes one assume-role call from the given or default session; its session is returned and cached under the key, with its expiry, as the newest entry, within the bound |
| StsCache.OnlyOwnKeysAdded | src/aws_python_boto_tools/sts_assume_role.py:77-92 | a call adds no key other than its own and its intermediate role's; every other remaining entry keeps its value |
| StsCache.FailureStoresNothing | src/aws_python_boto_tools/sts_assume_role.py:68-92 | a call that raises leaves nothing cached under its key (an expired entry was removed first) |
| StsCache.SuccessLeavesKeyNewest | src/aws_python_boto_tools/sts_assume_role.py:63-97 | with a bound of at least 1, a call that returns leaves its key cached as the most recently used |
| StsCache.IntermediateChainReturns | src/aws_python_boto_tools/sts_assume_role.py:77-97 | through an intermediate role, when the recursive lookup returns a session and assuming the target role from that session succeeds, the call returns the target role's session (tests/test_sts_assume_role.py:56-68 expects a session back) |
| StsCache.IntermediateAndTargetCached | src/aws_python_boto_tools/sts_assume_role.py:77-92 | through an intermediate role, with a bound of at least 2, a successful call leaves both the intermediate key and the target key cached |
| StsCache.SizeBoundKept | src/aws_python_boto_tools/sts_assume_role.py:91-95 | a cache within a non-negative bound stays within it, and the call never fails by eviction from an empty cache |
| StsCache.ShrinkAppliesAtNextInsert | src/aws_python_boto_tools/sts_assume_role.py:33-38 | after configure_cache lowers the bound, the next call that stores a session trims the cache to the new bound |
| StsCache.UncachedKeyInserted | src/aws_python_boto_tools/sts_assume_role.py:86-95 | an uncached key without an intermediate role is appended as the newest and the cache is cut to its newest max_size keys, with the new entry and the old values |
| StsCache.InitialCache | src/aws_python_boto_tools/sts_assume_role.py:25-27 | the cache starts empty and well formed, bounded by 128 |
| StsCache.MissesKeepNewest | src/aws_python_boto_tools/sts_assume_role.py:91-95 | looking up distinct uncached keys in turn leaves the newest max_size keys of the old order followed by those keys |
| StsCache.CacheSizeIsOrderLength | src/aws_python_boto_tools/sts_assume_role.py:94 | len(_STS_CACHE) equals the number of keys in the recency order |
| StsCache.LruEvictionScenario | tests/test_sts_assume_role.py:71-80 | with the bound 2, three different roles looked up in turn leave two entries, the second and third; the first is evicted |
| StsCache.SessionCache.constructor | src/aws_python_boto_tools/sts_assume_role.py:25-27 | the module's initial state: an empty cache bounded by 128 |
| StsCache.SessionCache.ConfigureCache | src/aws_python_boto_tools/sts_assume_role.py:33-38 | the state becomes Configure of the old state: only the bound changes |
| StsCache.SessionCache.EvictLeastRecent | src/aws_python_boto_tools/sts_assume_role.py:94-95 | the popitem loop leaves exactly Evict of the old state; it reports the KeyError exactly when the bound is negative |
| StsCache.SessionCache.Put | src/aws_python_boto_tools/sts_assume_role.py:92 | the assignment leaves exactly Store of the old state |
| StsCache.SessionCache.AssumeAndCache | src/aws_python_boto_tools/sts_assume_role.py:86-97 | the assume-role call, the store and the eviction loop leave state and result exactly as AssumeAndStore says |
| StsCache.SessionCache.GetSession | src/aws_python_boto_tools/sts_assume_role.py:41-97 | the recursive get_session leaves state and result exactly as GetSessionOutcome says, so every lemma above holds of it |

Two methods of `sqs_batcher.dfy` replay the auto-flush tests (tests/test_sqs_batch_send.py:104-118) on a transport that accepts everything. They have no contract of their own, so the table has no row for them; their asserts are checked.
- `SqsBatcher.CountLimitScenario`: with `max_batch_count = 1`, the second `add_message` sends the first entry alone in one call, and the batch then holds the second entry.
- `SqsBatcher.SizeLimitScenario`: with `max_batch_size_bytes = 5`, a five-byte body followed by a one-byte body flushes the first entry before accepting the second.

## Left out

- `**sqs_fields` are an opaque map of strings kept beside the entry. A key named Id, MessageBody or MessageAttributes would override the entry's own field. That override is not modelled.
- The strings in an entry are modelled as the bytes of their UTF-8 encoding and `str(val)` as given bytes, because the model has no encoder.
- The backoff is recorded as its exponent. The float `backoff_factor` and the real sleep are not modelled. So the model misses one failure: with a negative `backoff_factor`, the sleep at src/sqs_batch_send.py:106 raises `ValueError` in the loop's `else` clause. No `except` catches it there, so `flush` raises after the first partial failure that leaves entries, and the batch is not cleared.
- `__enter__` only returns the batcher, so it has no counterpart.
- The default `boto3.client("sqs")` and the real SQS service sit behind the transport oracle.
- `_generate_message_id` is an Id oracle. Uniqueness of uuid4 values is not claimed.
- The `_CACHE_LOCK` lock and concurrent callers are not modelled. Each call is atomic here, although the source releases the lock around the assume-role call.
- `_assume_role_session` and its boto3/STS internals (building the STS client, the credentials and the session) are an oracle. Its `(BotoCoreError, ClientError)` failure is a failed reply.
- `time.time()` is a clock oracle with integer readings; float timestamps are not modelled.
- The `__main__` example is not part of this model.
- The expiration test's `session2 != session` depends on STS returning a different session, so it is a property of the oracle, not of the cache.
- StsCache.GetSessionOutcome: its own contract states only well-formedness and the bound. Its behaviour is stated by the lemmas about it, listed above.
