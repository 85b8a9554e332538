/** The request/response multiplexer over one worker process, as a value.

    `State` holds the fields of `RustJsonlTransport` and a trace of everything the transport
    does that somebody else can see: bodies handed to the child's stdin, response lines taken
    off stdout, and promises resolved or rejected.  Every event the object can receive has a
    function from state to state; `Step` dispatches and `Run` folds a whole history.

    Request ids are the decimal texts of a counter, so an id is a positive number here and 0
    stands for every response id that is no such text. */
module TransportModel {
  import opened Basics
  import opened TransportTypes
  import opened TransportLog
  import opened Framing

  // ---------------------------------------------------------------- state

  datatype Pending = Pending(definitive: bool, dispatched: bool, writeCompleted: bool, signal: bool)

  datatype QueuedWrite = QueuedWrite(id: nat, bytes: nat)

  datatype Closing = NotRequested | Waiting | ExitConfirmed | DeadlineMissed

  datatype State = State(
    nextId: nat,
    child: bool,
    childStarted: bool,
    childClosed: bool,
    spawnFailed: bool,
    pending: map<nat, Pending>,
    abandoned: seq<nat>,
    queue: seq<QueuedWrite>,
    queuedBytes: int,
    writing: bool,
    blocked: bool,
    inFlight: nat,
    buffer: Bytes,
    failure: Option<Failure>,
    outcomeUnknown: bool,
    cleaned: bool,
    closing: Closing,
    trace: seq<Entry>,
    audit: Audit)

  const INITIAL := State(1, false, false, false, false, map[], [], [], 0, false, false, 0, [], None, false,
                         false, NotRequested, [], NEW_AUDIT)

  // ---------------------------------------------------------------- failure reports

  function ExecutionFor(dispatched: bool, definitive: bool, retryable: bool, retry: Option<Retry>): Execution {
    if !dispatched then
      Execution(false, NotStarted, if retry.Some? then retry.value else SafeNow)
    else if definitive then
      Execution(true, Unknown, ReconcileFirst)
    else
      Execution(true, Unknown, if retry.Some? then retry.value else if retryable then SafeNow else AfterChange)
  }

  function UnavailableFor(p: Pending, failure: Failure): Outcome {
    Unavailable(failure.code, ExecutionFor(p.dispatched, p.definitive, failure.retryable, failure.retry))
  }

  /** A structured error is passed on with the transport's own account of the write. */
  function WorkerErrorFor(p: Pending, error: Payload, retryable: bool): Outcome {
    var retry := if p.definitive then ReconcileFirst else if retryable then SafeNow else AfterChange;
    WorkerError(error, ExecutionFor(p.dispatched, p.definitive, retryable, Some(retry)))
  }

  function FailureForPending(p: Pending, failure: Failure): Outcome {
    if p.dispatched && p.definitive then
      OutcomeUnknown(failure.code, Execution(true, Unknown, ReconcileFirst))
    else
      UnavailableFor(p, failure)
  }

  function Fresh(definitive: bool, signal: bool): Pending {
    Pending(definitive, false, false, signal)
  }

  function UnavailableAfterFailure(s: State, definitive: bool): Outcome
    requires s.failure.Some?
  {
    var source := s.failure.value;
    var failure :=
      if s.outcomeUnknown then Failure(AuthoritativeOutcomeUnknown, false, Some(ReconcileFirst))
      else source;
    UnavailableFor(Fresh(definitive, false), failure)
  }

  // ---------------------------------------------------------------- poisoning

  function Rejections(pending: map<nat, Pending>, failure: Failure): map<nat, Outcome> {
    map id | id in pending :: FailureForPending(pending[id], failure)
  }

  predicate AuthoritativeUnknown(pending: map<nat, Pending>) {
    exists id | id in pending :: pending[id].dispatched && pending[id].definitive
  }

  function Emptied(s: State, failure: Failure): State {
    s.(cleaned := true, outcomeUnknown := AuthoritativeUnknown(s.pending), failure := Some(failure),
       queue := [], abandoned := [], queuedBytes := 0, writing := false, blocked := false, pending := map[])
  }

  function Invalidate(s: State, failure: Failure): State {
    if s.cleaned then s
    else
      var rejected := Rejections(s.pending, failure);
      Emptied(s, failure).(trace := s.trace + [Poisoned(failure.code, rejected)],
                           audit := NotePoisoned(s.audit, failure.code, rejected))
  }

  function Poison(s: State, code: Code): (t: State)
    ensures t.buffer == s.buffer
  {
    Invalidate(s, FailureOf(code))
  }

  // ---------------------------------------------------------------- writes

  /** What one `stdin.write` call does before it returns. */
  datatype WriteResult = Throws | Taken | Full

  function MarkDispatched(pending: map<nat, Pending>, id: nat): (marked: map<nat, Pending>)
    ensures marked.Keys == pending.Keys && |marked| == |pending|
  {
    if id in pending then pending[id := pending[id].(dispatched := true)] else pending
  }

  function MarkWritten(pending: map<nat, Pending>, id: nat): (marked: map<nat, Pending>)
    ensures marked.Keys == pending.Keys && |marked| == |pending|
  {
    if id in pending then pending[id := pending[id].(writeCompleted := true)] else pending
  }

  predicate CanWrite(s: State) {
    !s.cleaned && !s.writing && !s.blocked && s.child && s.queue != []
  }

  function Dispatch(s: State): State
    requires s.queue != []
  {
    var item := s.queue[0];
    s.(queue := s.queue[1..], queuedBytes := s.queuedBytes - item.bytes,
       pending := MarkDispatched(s.pending, item.id), writing := true, inFlight := item.id,
       trace := s.trace + [Wrote(item.id)], audit := NoteWrote(s.audit, item.id))
  }

  function Flush(s: State, w: WriteResult): State {
    if !CanWrite(s) then s
    else
      var d := Dispatch(s);
      match w
      case Throws => Poison(d.(writing := false, inFlight := 0), RequestWriteFailed)
      case Taken => d
      case Full => d.(blocked := true)
  }

  function Landed(s: State, ok: bool): State {
    s.(pending := if ok then MarkWritten(s.pending, s.inFlight) else s.pending, writing := false, inFlight := 0)
  }

  function WriteDone(s: State, ok: bool, w: WriteResult): State {
    if s.inFlight == 0 then s
    else if ok then Flush(Landed(s, ok), w)
    else Poison(Landed(s, ok), RequestWriteFailed)
  }

  function Drained(s: State, w: WriteResult): State {
    Flush(s.(blocked := false), w)
  }

  // ---------------------------------------------------------------- request

  datatype Timeout = Default | Millis(ms: int) | NotWhole

  datatype Signal = NoSignal | LiveSignal | AlreadyAborted

  predicate ValidTimeout(t: Timeout) {
    t.Default? || (t.Millis? && 0 <= t.ms <= MAX_TIMEOUT_MS)
  }

  /** `body` is the encoded length, absent when encoding throws; `spawns` says whether a spawn
      made by this very request succeeds. */
  datatype RequestArgs = RequestArgs(methodGiven: bool, definitive: bool, timeout: Timeout, signal: Signal,
                                     body: Option<nat>, spawns: bool, write: WriteResult)

  /** Why `request` turns a call away before anything is queued, in the order it checks. */
  function Refusal(s: State, r: RequestArgs): Option<Code> {
    if !ValidTimeout(r.timeout) then Some(InvalidTimeout)
    else if r.signal.AlreadyAborted? then Some(RequestCancelled)
    else if |s.pending| >= MAX_PENDING then Some(PendingLimit)
    else if r.body.None? then Some(EncodeFailed)
    else if r.body.value > MAX_QUEUED_BYTES then Some(RequestTooLarge)
    else if s.queuedBytes + r.body.value > MAX_QUEUED_BYTES then Some(WriteQueueLimit)
    else None
  }

  /** A promise ends by itself, outside any poisoning. */
  function End(s: State, id: nat, outcome: Outcome): State {
    s.(trace := s.trace + [Settled(id, outcome)], audit := NoteSettled(s.audit, id, outcome))
  }

  /** Registers the request under the next id, before the child is started. */
  function Register(s: State, r: RequestArgs): State {
    var id := s.nextId;
    s.(nextId := id + 1,
       pending := s.pending[id := Fresh(r.definitive, r.signal.LiveSignal?)],
       trace := s.trace + [Accepted(id, r.definitive)],
       audit := NoteAccepted(s.audit, id, r.definitive))
  }

  /** Makes sure the child runs, then queues the body. */
  function Enqueue(s: State, id: nat, bytes: nat): State {
    s.(child := true, childStarted := s.child && s.childStarted, childClosed := s.child && s.childClosed,
       queue := s.queue + [QueuedWrite(id, bytes)], queuedBytes := s.queuedBytes + bytes)
  }

  /** Registers the request, with the child running, and queues its body. */
  function Admit(s: State, r: RequestArgs): State
    requires r.body.Some?
  {
    Enqueue(Register(s, r), s.nextId, r.body.value)
  }

  function TurnAway(s: State, outcome: Outcome): State {
    End(s.(nextId := s.nextId + 1), s.nextId, outcome)
  }

  function Accept(s: State, r: RequestArgs): State
    requires r.body.Some?
  {
    if !s.child && !r.spawns then Poison(Register(s, r), SpawnFailed) else Flush(Admit(s, r), r.write)
  }

  function Request(s: State, r: RequestArgs): State {
    if !r.methodGiven then s
    else if s.failure.Some? then TurnAway(s, UnavailableAfterFailure(s, r.definitive))
    else
      match Refusal(s, r)
      case Some(code) => TurnAway(s, UnavailableFor(Fresh(r.definitive, false), FailureOf(code)))
      case None => Accept(s, r)
  }

  // ---------------------------------------------------------------- cancellation

  function IndexOf(queue: seq<QueuedWrite>, id: nat): (i: nat)
    ensures i <= |queue|
    ensures i < |queue| ==> queue[i].id == id
    ensures forall k :: 0 <= k < i ==> queue[k].id != id
  {
    if queue == [] then 0 else if queue[0].id == id then 0 else 1 + IndexOf(queue[1..], id)
  }

  function Forget(pending: map<nat, Pending>, id: nat): (rest: map<nat, Pending>)
    ensures rest.Keys == pending.Keys - {id} && |rest| <= |pending|
  {
    var rest := pending - {id};
    assert rest.Keys <= pending.Keys && |rest.Keys| <= |pending.Keys|;
    rest
  }

  function Settle(s: State, id: nat, outcome: Outcome): (t: State)
    ensures t.buffer == s.buffer
  {
    End(s.(pending := Forget(s.pending, id)), id, outcome)
  }

  function Unqueue(s: State, i: nat): State
    requires i < |s.queue|
  {
    s.(queue := s.queue[..i] + s.queue[i + 1..], queuedBytes := s.queuedBytes - s.queue[i].bytes)
  }

  /** Takes the i-th queued write back and ends its promise. */
  function Withdraw(s: State, i: nat, outcome: Outcome): State
    requires i < |s.queue|
  {
    Settle(Unqueue(s, i), s.queue[i].id, outcome)
  }

  function CancelQueued(s: State, id: nat, outcome: Outcome, w: WriteResult): State {
    if id !in s.pending || s.pending[id].dispatched then s
    else
      var i := IndexOf(s.queue, id);
      if i == |s.queue| then s else Flush(Withdraw(s, i, outcome), w)
  }

  /** A set in insertion order that forgets its oldest member past the bound. */
  function Remember(abandoned: seq<nat>, id: nat): seq<nat> {
    var grown := if id in abandoned then abandoned else abandoned + [id];
    if |grown| > MAX_PENDING then grown[1..] else grown
  }

  function Abandon(s: State, id: nat, failure: Failure): State {
    if id !in s.pending || !s.pending[id].dispatched || !s.pending[id].writeCompleted then s
    else
      var outcome := UnavailableFor(s.pending[id], failure);
      Settle(s.(abandoned := Remember(s.abandoned, id)), id, outcome)
  }

  function Abort(s: State, id: nat, w: WriteResult): State {
    if id !in s.pending || !s.pending[id].signal then s
    else
      var p := s.pending[id];
      var failure := FailureOf(RequestCancelled);
      if !p.dispatched then CancelQueued(s, id, UnavailableFor(p, failure), w)
      else if p.definitive then s
      else if p.writeCompleted then Abandon(s, id, failure)
      else Invalidate(s, failure)
  }

  function TimedOut(s: State, id: nat, w: WriteResult): State {
    if id !in s.pending then s
    else
      var p := s.pending[id];
      var failure := FailureOf(RequestTimeout);
      if !p.dispatched then CancelQueued(s, id, UnavailableFor(p, failure), w) else Invalidate(s, failure)
  }

  // ---------------------------------------------------------------- stdout

  function StripCarriageReturn(line: Bytes): Bytes {
    if line != [] && Last(line) == CARRIAGE_RETURN then Front(line) else line
  }

  function Without(abandoned: seq<nat>, id: nat): (r: seq<nat>)
    ensures |r| <= |abandoned|
    ensures forall x :: x in r <==> x in abandoned && x != id
    ensures NoDuplicates(abandoned) ==> NoDuplicates(r)
  {
    if abandoned == [] then []
    else
      var rest := Without(Front(abandoned), id);
      assert abandoned == Front(abandoned) + [Last(abandoned)];
      assert NoDuplicates(abandoned) ==> Last(abandoned) !in Front(abandoned);
      if Last(abandoned) == id then rest else rest + [Last(abandoned)]
  }

  /** A late answer to an abandoned request is taken off the books, once. */
  function Absorb(s: State, id: nat): State {
    s.(abandoned := Without(s.abandoned, id))
  }

  function SettleError(s: State, id: nat, error: Payload, retryable: bool): (t: State)
    requires id in s.pending
    ensures t.buffer == s.buffer
  {
    Settle(s, id, WorkerErrorFor(s.pending[id], error, retryable))
  }

  /** An answer to a pending request. */
  function Answer(s: State, id: nat, body: Body): (t: State)
    requires id in s.pending
    ensures t.buffer == s.buffer
  {
    match body
    case Ambiguous => Poison(s, AmbiguousResponse)
    case BadError => Poison(s, InvalidStructuredError)
    case StructuredError(e, retryable) => SettleError(s, id, e, retryable)
    case Value(v) => Settle(s, id, Resolved(v))
  }

  function EnvelopeFault(reply: Reply): Code {
    match reply
    case NotJson => MalformedOutput
    case NotObject => InvalidEnvelope
    case _ => InvalidProtocol
  }

  function Respond(s: State, reply: Reply): (t: State)
    ensures t.buffer == s.buffer
  {
    if !reply.Envelope? then Poison(s, EnvelopeFault(reply))
    else if reply.id in s.pending then Answer(s, reply.id, reply.body)
    else if reply.id in s.abandoned then Absorb(s, reply.id)
    else Poison(s, UnknownResponseId)
  }

  function Take(s: State, line: Bytes, reply: Reply): State {
    s.(trace := s.trace + [Received(line, reply)], audit := NoteReceived(s.audit, reply))
  }

  /** A line is recorded in the trace only while the transport is usable. */
  function HandleLine(parse: Parser, s: State, line: Bytes): (t: State)
    ensures t.buffer == s.buffer
  {
    var reply := parse(StripCarriageReturn(line));
    Respond(if s.cleaned then s else Take(s, line, reply), reply)
  }

  function EndOfBuffer(s: State): State {
    if |s.buffer| > MAX_STDOUT_LINE_BYTES then Poison(s, OutputTooLarge) else s
  }

  /** Takes the first complete line off the buffer. */
  function TakeLine(parse: Parser, s: State): (t: State)
    requires NewlineAt(s.buffer) < |s.buffer|
    ensures t.buffer == s.buffer[NewlineAt(s.buffer) + 1..]
  {
    var i := NewlineAt(s.buffer);
    var rest := s.(buffer := s.buffer[i + 1..]);
    if i > MAX_STDOUT_LINE_BYTES then Poison(rest, OutputTooLarge) else HandleLine(parse, rest, s.buffer[..i])
  }

  /** The loop of `handleStdout` over the buffered bytes. */
  function Pump(parse: Parser, s: State): State
    decreases |s.buffer|
  {
    if NewlineAt(s.buffer) == |s.buffer| then EndOfBuffer(s)
    else
      var t := TakeLine(parse, s);
      if t.cleaned then t else Pump(parse, t)
  }

  function Stdout(parse: Parser, s: State, chunk: Bytes): State {
    if |s.buffer| + |chunk| > MAX_STDOUT_LINE_BYTES && NEWLINE !in chunk then Poison(s, OutputTooLarge)
    else
      var t := s.(buffer := s.buffer + chunk);
      if |t.buffer| > MAX_STDOUT_LINE_BYTES && NEWLINE !in t.buffer then Poison(t, OutputTooLarge)
      else Pump(parse, t)
  }

  // ---------------------------------------------------------------- the child's life

  function Spawned(s: State): State {
    if !s.child || s.spawnFailed then s
    else s.(childStarted := true, trace := s.trace + [Started], audit := NoteStarted(s.audit))
  }

  function Recall(pending: map<nat, Pending>): (recalled: map<nat, Pending>)
    ensures recalled.Keys == pending.Keys && |recalled| == |pending|
  {
    var recalled := map id | id in pending :: pending[id].(dispatched := false);
    assert recalled.Keys == pending.Keys && |recalled.Keys| == |pending.Keys|;
    recalled
  }

  /** A child that reports an error before its start failed to spawn, and will never report a start. */
  function Recalled(s: State): State {
    s.(pending := Recall(s.pending), spawnFailed := true)
  }

  function ChildError(s: State): State {
    if !s.child then s else Poison(if s.childStarted then s else Recalled(s), SpawnFailed)
  }

  /** The child's exit confirms a close that waits for it. */
  function Gone(s: State): State {
    s.(childClosed := true, closing := if s.closing.Waiting? then ExitConfirmed else s.closing)
  }

  function ChildClose(s: State): State {
    if !s.child then s else Poison(Gone(s), ChildExited)
  }

  function Close(s: State): State {
    if !s.closing.NotRequested? then s
    else if !s.child || s.childClosed then Poison(s, Closed).(closing := ExitConfirmed)
    else Poison(s.(closing := Waiting), Closed)
  }

  function ShutdownDeadline(s: State): State {
    if s.closing.Waiting? then s.(closing := DeadlineMissed) else s
  }

  // ---------------------------------------------------------------- histories

  datatype Event =
    | EvRequest(r: RequestArgs)
    | EvWriteDone(ok: bool, w: WriteResult)
    | EvDrain(w: WriteResult)
    | EvStdout(chunk: Bytes)
    | EvAbort(id: nat, w: WriteResult)
    | EvTimeout(id: nat, w: WriteResult)
    | EvSpawned
    | EvChildError
    | EvChildClose
    | EvStdinError
    | EvStdoutError
    | EvClose
    | EvShutdownDeadline

  function Step(parse: Parser, s: State, e: Event): State {
    match e
    case EvRequest(r) => Request(s, r)
    case EvWriteDone(ok, w) => WriteDone(s, ok, w)
    case EvDrain(w) => if s.child then Drained(s, w) else s
    case EvStdout(chunk) => if s.child then Stdout(parse, s, chunk) else s
    case EvAbort(id, w) => Abort(s, id, w)
    case EvTimeout(id, w) => TimedOut(s, id, w)
    case EvSpawned => Spawned(s)
    case EvChildError => ChildError(s)
    case EvChildClose => ChildClose(s)
    case EvStdinError => if s.child then Poison(s, RequestWriteFailed) else s
    case EvStdoutError => if s.child then Poison(s, ResponseReadFailed) else s
    case EvClose => Close(s)
    case EvShutdownDeadline => ShutdownDeadline(s)
  }

  function Run(parse: Parser, events: seq<Event>): State {
    if events == [] then INITIAL else Step(parse, Run(parse, Front(events)), Last(events))
  }
}
