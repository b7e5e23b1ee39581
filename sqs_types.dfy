/**
 * The values SQSBatcher works with: batch entries, what the SQS transport and
 * the on_success callback do (as oracles), and the record of one attempt of
 * the retry loop in flush.
 */
module SqsTypes {
  import opened Wrappers
  import opened SqsSize

  /** The Id of a batch entry. */
  type Id = string

  /**
   * One entry of a SendMessageBatch request: its "Id", "MessageBody",
   * "MessageAttributes" and the pass-through keyword fields (MessageGroupId, ...).
   * The body is kept as its UTF-8 encoding.
   */
  datatype Entry = Entry(id: Id, body: Bytes, attributes: seq<Attribute>, extra: map<string, string>)

  /** The errors the batcher raises or lets propagate. */
  datatype Error =
    | InvalidBatchCount   // ValueError from the constructor: max_batch_count out of range
    | InvalidBatchSize    // ValueError from the constructor: max_batch_size_bytes out of range
    | TooManyAttributes   // ValueError from add_message
    | TransportFailure    // send_message_batch raised on the final attempt
    | CallbackFailure     // on_success raised on the final attempt

  /** How a call returned: normally, or by raising. */
  datatype Status = Ok | Raised(error: Error)

  /**
   * What one send_message_batch call did: it returned a response whose
   * "Failed" list carries the given Ids (empty when "Failed" is absent), or it raised.
   */
  datatype Reply = Delivered(failed: set<Id>) | TransportError

  /**
   * What one attempt of flush's retry loop did.
   *   sent      the Entries passed to send_message_batch
   *   reply     the transport's answer
   *   notified  the list on_success was called with, if it was called
   *   raised    the attempt ended by an exception, from the transport or from on_success
   *   pause     k when the attempt ended with the backoff sleep of sqs_batch_send.py:106,
   *             backoff_factor times 2 to the power k seconds
   */
  datatype AttemptRecord = AttemptRecord(
    sent: seq<Entry>,
    reply: Reply,
    notified: Option<seq<Id>>,
    raised: bool,
    pause: Option<nat>)

  /**
   * The SQS client as an oracle: the reply to a send_message_batch call may
   * depend on every attempt made before it and on the entries sent.
   */
  type Transport = (seq<AttemptRecord>, seq<Entry>) -> Reply

  /**
   * The optional on_success callback; when present, whether a call with the
   * given Ids raises, given every attempt made before it.
   */
  datatype Callback = NoCallback | OnSuccess(raises: (seq<AttemptRecord>, seq<Id>) -> bool)

  /** Everything outside the batcher that flush talks to. */
  datatype Env = Env(transport: Transport, onSuccess: Callback)

  /** The attempts one flush makes and how it ends. */
  datatype Trace = Trace(records: seq<AttemptRecord>, status: Status)
}
