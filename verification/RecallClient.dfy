/** The Recall Policy client as a value: the replica of the Host's policy, and the one write an
    operator can author.  `trace` records what the client sends.

    Identifiers come from a supply that never repeats: message ids, and the idempotency keys the
    client makes up.  Time is the sum of the frame times handed to `process`. */
module RecallClient {
  import opened Basics
  import opened RecallPolicy

  const PENDING_TIMEOUT_SECONDS: real := 15.0

  datatype Link = Offline | Connecting | Connected | Ready | Disconnected | ProtocolRefused

  datatype Cursor = Cursor(snapshotId: string, version: int, sequence: int, stateHash: Option<string>)

  datatype Phase =
    | NoCommand
    | Awaiting(correlation: nat, key: nat, mode: RequestedMode, elapsed: real)
    | Acknowledged(mode: RequestedMode)
    | Refused(mode: RequestedMode)
    | Failed(mode: RequestedMode, key: nat)

  datatype Sent =
    | Write(correlation: nat, key: nat, mode: RequestedMode, version: int)
    | Ask(resync: bool)
    | Ack(version: int, sequence: int, stateHash: Option<string>)

  datatype State = State(
    link: Link,
    bound: bool,
    cursor: Option<Cursor>,
    projection: Option<Policy>,
    lastEvent: Option<string>,
    selection: Option<RequestedMode>,
    command: Phase,
    processing: bool,
    nextId: nat,
    trace: seq<Sent>)

  const INITIAL := State(Offline, false, None, None, None, None, NoCommand, false, 1, [])

  // ---------------------------------------------------------------- inbound messages

  datatype Verdict = Accepts | Refuses | Fails

  datatype Delta = Delta(id: string, base: int, next: int, sequence: int, stateHash: string, updates: seq<Update>)

  datatype Inbound =
    | Snapshot(cursor: Cursor, projection: Policy)
    | Change(delta: Delta)
    | Outcome(verdict: Verdict, correlation: nat)

  /** An envelope of this projection, as far as `parse_inbound` can fail on it: a shape it refuses,
      or one of its three kinds with the parts it looks into. */
  datatype Envelope =
    | BadShape
    | SnapshotEnvelope(id: string, version: int, sequence: int, stateHash: string, state: Dictionary)
    | DeltaEnvelope(delta: Delta)
    | OutcomeEnvelope(verdict: Verdict, correlation: nat, state: Dictionary)

  function ParseInbound(e: Envelope): Result<Inbound, Refusal> {
    match e
    case BadShape => Err(UnknownField)
    case SnapshotEnvelope(id, version, sequence, stateHash, state) =>
      var projection :- Parse(state);
      Ok(Snapshot(Cursor(id, version, sequence, Some(stateHash)), projection))
    case DeltaEnvelope(delta) => Ok(Change(delta))
    case OutcomeEnvelope(verdict, correlation, state) =>
      var _ :- Parse(state);
      Ok(Outcome(verdict, correlation))
  }

  // ---------------------------------------------------------------- the replica

  predicate Follows(c: Cursor, d: Delta) {
    d.base == c.version && d.sequence == c.sequence + 1 && d.next > c.version
  }

  /** The cursor and projection after a delta, or nothing when it is refused. */
  function ApplyDelta(c: Cursor, p: Policy, d: Delta): Option<(Cursor, Policy)> {
    if !Follows(c, d) then None
    else
      match ApplyAll(p, d.updates)
      case Err(_) => None
      case Ok(q) => Some((c.(version := d.next, sequence := d.sequence, stateHash := Some(d.stateHash)), q))
  }

  // ---------------------------------------------------------------- sending

  function Send(s: State, ids: nat, what: Sent, sent: bool): State {
    s.(nextId := s.nextId + ids, trace := if sent then s.trace + [what] else s.trace)
  }

  function RequestSnapshot(s: State, sent: bool): State {
    Send(s, 2, Ask(s.bound), sent)
  }

  function SendAcknowledge(s: State, sent: bool): State {
    if !s.bound || s.cursor.None? then s
    else
      var c := s.cursor.value;
      Send(s, 2, Ack(c.version, c.sequence, c.stateHash), sent)
  }

  function DropProjection(s: State): State {
    s.(bound := false, cursor := None, projection := None, lastEvent := None, selection := None)
  }

  function FailPending(s: State): State {
    if s.command.Awaiting? then s.(command := Failed(s.command.mode, s.command.key)) else s
  }

  // ---------------------------------------------------------------- messages

  function TakeSnapshot(s: State, c: Cursor, p: Policy, sent: bool): State {
    SendAcknowledge(s.(bound := true, lastEvent := Some(c.snapshotId), cursor := Some(c), projection := Some(p),
                       selection := None, link := Ready), sent)
  }

  function TakeDelta(s: State, d: Delta, sent: bool): State {
    var applied :=
      if s.cursor.Some? && s.projection.Some? then ApplyDelta(s.cursor.value, s.projection.value, d) else None;
    match applied
    case None => RequestSnapshot(s, sent)
    case Some(r) =>
      SendAcknowledge(s.(cursor := Some(r.0), projection := Some(r.1), lastEvent := Some(d.id), link := Ready), sent)
  }

  function TakeOutcome(s: State, verdict: Verdict, correlation: nat): State {
    match s.command
    case Awaiting(own, key, mode, _) =>
      if own != correlation then s
      else
        (match verdict
         case Accepts => s.(command := Acknowledged(mode))
         case Refuses => s.(command := Refused(mode))
         case Fails => s.(command := Failed(mode, key)))
    case _ => s
  }

  /** `sent` says whether the message this one provokes goes out. */
  function OnMessage(s: State, e: Envelope, sent: bool): State {
    match ParseInbound(e)
    case Err(_) => DropProjection(FailPending(s.(link := ProtocolRefused)))
    case Ok(Snapshot(c, p)) => TakeSnapshot(s, c, p, sent)
    case Ok(Change(d)) => TakeDelta(s, d, sent)
    case Ok(Outcome(verdict, correlation)) => TakeOutcome(s, verdict, correlation)
  }

  // ---------------------------------------------------------------- the operator

  predicate SelectionAvailable(s: State, urlValid: bool) {
    urlValid && (s.link.Connected? || s.link.Ready?) && s.projection.Some? && !s.command.Awaiting?
  }

  predicate WriteAvailable(s: State, urlValid: bool) {
    && SelectionAvailable(s, urlValid)
    && s.selection.Some?
    && s.command != Refused(s.selection.value)
    && s.projection.value.requested != s.selection.value
  }

  function SelectMode(s: State, mode: RequestedMode, urlValid: bool): State {
    if !SelectionAvailable(s, urlValid) then s
    else
      s.(selection := if s.selection == Some(mode) then None else Some(mode),
         command := if s.command.Refused? || s.command.Acknowledged? then NoCommand else s.command)
  }

  /** A retry of a failed write of the same mode. */
  predicate Retries(command: Phase, mode: RequestedMode) {
    command.Failed? && command.mode == mode
  }

  function Apply(s: State, urlValid: bool, sent: bool): State {
    if !WriteAvailable(s, urlValid) || !s.bound || s.cursor.None? then s
    else
      var mode := s.selection.value;
      var retry := Retries(s.command, mode);
      var key := if retry then s.command.key else s.nextId;
      var correlation := if retry then s.nextId else s.nextId + 1;
      Send(s.(command := if sent then Awaiting(correlation, key, mode, 0.0) else Failed(mode, key), processing := true),
           if retry then 1 else 2, Write(correlation, key, mode, s.cursor.value.version), sent)
  }

  // ---------------------------------------------------------------- time and the link

  /** A frame; delivered only while processing is on. */
  function Process(s: State, delta: real): State {
    if !s.processing then s
    else
      var t :=
        if !s.command.Awaiting? then s
        else if s.command.elapsed + delta >= PENDING_TIMEOUT_SECONDS then FailPending(s)
        else s.(command := s.command.(elapsed := s.command.elapsed + delta));
      t.(processing := t.command.Awaiting?)
  }

  function Connect(s: State, closed: bool, opens: bool): State {
    if !closed then s
    else if opens then s.(link := Connecting, command := NoCommand)
    else s.(link := Offline)
  }

  function Disconnect(s: State, closed: bool): State {
    if closed then s else DropProjection(FailPending(s)).(link := Disconnected)
  }

  function Closed(s: State): State {
    DropProjection(FailPending(s.(link := Disconnected)))
  }

  function Unavailable(s: State): State {
    DropProjection(FailPending(s.(link := Offline)))
  }

  // ---------------------------------------------------------------- histories

  datatype Event =
    | EvMessage(envelope: Envelope, sent: bool)
    | EvForeign
    | EvSelect(mode: RequestedMode, urlValid: bool)
    | EvApply(urlValid: bool, sent: bool)
    | EvProcess(delta: real)
    | EvConnect(closed: bool, opens: bool)
    | EvDisconnect(closed: bool)
    | EvAskSnapshot(open: bool, sent: bool)
    | EvOpened
    | EvClosed
    | EvUnavailable
    | EvMalformed

  function Step(s: State, e: Event): State {
    match e
    case EvMessage(envelope, sent) => OnMessage(s, envelope, sent)
    case EvForeign => s
    case EvSelect(mode, urlValid) => SelectMode(s, mode, urlValid)
    case EvApply(urlValid, sent) => Apply(s, urlValid, sent)
    case EvProcess(delta) => Process(s, delta)
    case EvConnect(closed, opens) => Connect(s, closed, opens)
    case EvDisconnect(closed) => Disconnect(s, closed)
    case EvAskSnapshot(open, sent) => if open then RequestSnapshot(s, sent) else s
    case EvOpened => s.(link := Connected)
    case EvClosed => Closed(s)
    case EvUnavailable => Unavailable(s)
    case EvMalformed => s
  }

  function Run(events: seq<Event>): State {
    if events == [] then INITIAL else Step(Run(Front(events)), Last(events))
  }
}
