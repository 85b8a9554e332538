/** The vocabulary of the transport: failures, outcomes, worker replies, and the entries of the
    trace that records everything somebody outside can see. */
module TransportTypes {
  import opened Basics

  const MAX_TIMEOUT_MS := 2_147_483_647
  const MAX_PENDING := 1024
  const MAX_QUEUED_BYTES := 4 * 1024 * 1024
  const MAX_STDOUT_LINE_BYTES := 1024 * 1024

  type Byte = b: int | 0 <= b < 256
  type Bytes = seq<Byte>

  const NEWLINE: Byte := 10
  const CARRIAGE_RETURN: Byte := 13

  type Payload = string

  // ---------------------------------------------------------------- failures and outcomes

  datatype Code =
    | InvalidTimeout | RequestCancelled | PendingLimit | EncodeFailed | RequestTooLarge
    | WriteQueueLimit | SpawnFailed | RequestWriteFailed | ResponseReadFailed | RequestTimeout
    | ChildExited | Closed | OutputTooLarge | MalformedOutput | InvalidEnvelope | InvalidProtocol
    | UnknownResponseId | AmbiguousResponse | InvalidStructuredError | AuthoritativeOutcomeUnknown

  datatype Retry = SafeNow | AfterChange | ReconcileFirst

  datatype WriteOutcome = NotStarted | Unknown

  datatype Failure = Failure(code: Code, retryable: bool, retry: Option<Retry>)

  datatype Execution = Execution(requestDispatched: bool, writeOutcome: WriteOutcome, retry: Retry)

  /** How a promise handed out by `request` ends.  The execution of a worker's error is the transport's
      own report, which stands wherever the worker's details bring none. */
  datatype Outcome =
    | Resolved(result: Payload)
    | WorkerError(error: Payload, execution: Execution)
    | OutcomeUnknown(code: Code, execution: Execution)
    | Unavailable(code: Code, execution: Execution)

  /** What the response parser blames on the worker's output. */
  predicate ResponseFault(code: Code) {
    || code.MalformedOutput? || code.InvalidEnvelope? || code.InvalidProtocol?
    || code.UnknownResponseId? || code.AmbiguousResponse? || code.InvalidStructuredError?
  }

  /** Failures a retry as such cannot help with. */
  predicate NeedsChange(code: Code) {
    || code.InvalidTimeout? || code.EncodeFailed? || code.RequestTooLarge? || code.OutputTooLarge?
    || ResponseFault(code)
  }

  function FailureOf(code: Code): Failure {
    if NeedsChange(code) then Failure(code, false, Some(AfterChange)) else Failure(code, true, None)
  }

  // ---------------------------------------------------------------- responses

  datatype Body = Ambiguous | Value(value: Payload) | BadError | StructuredError(error: Payload, retryable: bool)

  /** What `JSON.parse` and the envelope checks make of one line. */
  datatype Reply = NotJson | NotObject | BadProtocol | Envelope(id: nat, body: Body)

  type Parser = Bytes -> Reply

  predicate WellFormed(reply: Reply) {
    reply.Envelope? && (reply.body.Value? || reply.body.StructuredError?)
  }

  // ---------------------------------------------------------------- the trace

  /** Bodies handed to the child's stdin, lines taken off its stdout, and promises that end.
      `Poisoned` is the whole synchronous sweep of `invalidate`: the promises it rejects end
      together, within one entry. */
  datatype Entry =
    | Accepted(id: nat, definitive: bool)
    | Wrote(id: nat)
    | Started
    | Received(line: Bytes, reply: Reply)
    | Poisoned(code: Code, rejected: map<nat, Outcome>)
    | Settled(id: nat, outcome: Outcome)
}
