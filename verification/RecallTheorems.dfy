/** What the Recall Policy client keeps: its replica is always a state the Host had, and its one write
    is authored, retried and ended by the rules of the instrument. */
module RecallTheorems {
  import opened Basics
  import opened RecallPolicy
  import opened RecallClient

  // ---------------------------------------------------------------- the Host

  /** The Host commits one state after the other; version and sequence go up by one each time. */
  datatype History = History(version: int, sequence: int, states: seq<Policy>)

  /** A snapshot of some state of the history, or the delta between two consecutive ones. */
  ghost predicate Genuine(h: History, hash: Policy -> string, e: Envelope) {
    match e
    case SnapshotEnvelope(_, version, sequence, stateHash, state) =>
      exists i :: SnapshotOf(h, hash, i, version, sequence, stateHash, state)
    case DeltaEnvelope(d) => exists i :: DeltaOf(h, hash, i, d)
    case _ => true
  }

  predicate SnapshotOf(h: History, hash: Policy -> string, i: int, version: int, sequence: int, stateHash: string,
                       state: Dictionary) {
    && 0 <= i < |h.states|
    && version == h.version + i && sequence == h.sequence + i
    && stateHash == hash(h.states[i]) && state == Print(h.states[i])
  }

  predicate DeltaOf(h: History, hash: Policy -> string, i: int, d: Delta) {
    && 0 < i < |h.states|
    && d.base == h.version + i - 1 && d.next == h.version + i && d.sequence == h.sequence + i
    && d.stateHash == hash(h.states[i]) && d.updates == Between(h.states[i - 1], h.states[i])
  }

  /** The replica shows the i-th state: its version, its sequence, its hash, and its view. */
  predicate Shows(h: History, hash: Policy -> string, c: Cursor, p: Policy, i: int) {
    && 0 <= i < |h.states|
    && Readable(h.states[i])
    && c.version == h.version + i && c.sequence == h.sequence + i
    && c.stateHash == Some(hash(h.states[i])) && p == View(h.states[i])
  }

  predicate IsAck(h: History, hash: Policy -> string, what: Sent, i: int) {
    what.Ack? && 0 <= i < |h.states|
    && what.version == h.version + i && what.sequence == h.sequence + i && what.stateHash == Some(hash(h.states[i]))
  }

  ghost predicate AcksAreTrue(h: History, hash: Policy -> string, trace: seq<Sent>) {
    forall k :: 0 <= k < |trace| && trace[k].Ack? ==> exists i :: IsAck(h, hash, trace[k], i)
  }

  /** Whenever a projection is present it is a state the Host really had, and every acknowledgement
      named one. */
  ghost predicate Mirrors(s: State, h: History, hash: Policy -> string) {
    && s.projection.Some? == s.cursor.Some? == s.bound
    && (s.projection.Some? ==> exists i :: Shows(h, hash, s.cursor.value, s.projection.value, i))
    && AcksAreTrue(h, hash, s.trace)
  }

  lemma AcknowledgeMirrors(s: State, h: History, hash: Policy -> string, sent: bool)
    requires Mirrors(s, h, hash)
    ensures Mirrors(SendAcknowledge(s, sent), h, hash)
  {
    if s.cursor.Some? && sent {
      var i :| Shows(h, hash, s.cursor.value, s.projection.value, i);
      var c := s.cursor.value;
      assert IsAck(h, hash, Ack(c.version, c.sequence, c.stateHash), i);
    }
  }

  lemma SnapshotMirrors(s: State, h: History, hash: Policy -> string, e: Envelope, sent: bool)
    requires Mirrors(s, h, hash) && e.SnapshotEnvelope? && Genuine(h, hash, e)
    ensures Mirrors(OnMessage(s, e, sent), h, hash)
  {
    var i :| SnapshotOf(h, hash, i, e.version, e.sequence, e.stateHash, e.state);
    SnapshotRoundTrip(h.states[i]);
    if Readable(h.states[i]) {
      var c := Cursor(e.id, e.version, e.sequence, Some(e.stateHash));
      assert Shows(h, hash, c, View(h.states[i]), i);
      AcknowledgeMirrors(s.(bound := true, lastEvent := Some(c.snapshotId), cursor := Some(c),
                            projection := Some(View(h.states[i])), selection := None, link := Ready), h, hash, sent);
    }
  }

  /** A genuine delta is accepted if and only if it is the very next one and the state it leads to
      can be read; then the replica shows that state. */
  lemma GenuineDelta(h: History, hash: Policy -> string, c: Cursor, p: Policy, i: int, d: Delta, j: int)
    requires Shows(h, hash, c, p, i) && DeltaOf(h, hash, j, d)
    ensures ApplyDelta(c, p, d).Some? <==> j == i + 1 && Readable(h.states[j])
    ensures ApplyDelta(c, p, d).Some? ==> Shows(h, hash, ApplyDelta(c, p, d).value.0, ApplyDelta(c, p, d).value.1, j)
  {
    if j == i + 1 {
      DeltaIsSnapshot(h.states[i], h.states[j]);
    }
  }

  lemma DeltaMirrors(s: State, h: History, hash: Policy -> string, d: Delta, sent: bool)
    requires Mirrors(s, h, hash) && Genuine(h, hash, DeltaEnvelope(d))
    ensures Mirrors(TakeDelta(s, d, sent), h, hash)
  {
    if s.projection.Some? {
      var c, p := s.cursor.value, s.projection.value;
      var i :| Shows(h, hash, c, p, i);
      var j :| DeltaOf(h, hash, j, d);
      GenuineDelta(h, hash, c, p, i, d, j);
      var r := ApplyDelta(c, p, d);
      if r.Some? {
        AcknowledgeMirrors(s.(cursor := Some(r.value.0), projection := Some(r.value.1), lastEvent := Some(d.id),
                              link := Ready), h, hash, sent);
      }
    }
  }

  ghost predicate AllGenuine(h: History, hash: Policy -> string, events: seq<Event>) {
    forall k :: 0 <= k < |events| && events[k].EvMessage? ==> Genuine(h, hash, events[k].envelope)
  }

  lemma StepMirrors(s: State, h: History, hash: Policy -> string, e: Event)
    requires Mirrors(s, h, hash) && (e.EvMessage? ==> Genuine(h, hash, e.envelope))
    ensures Mirrors(Step(s, e), h, hash)
  {
    match e
    case EvMessage(envelope, sent) => MessageMirrors(s, h, hash, envelope, sent);
    case EvAskSnapshot(_, sent) => AskMirrors(s, h, hash, sent);
    case EvApply(urlValid, sent) => ApplyMirrors(s, h, hash, urlValid, sent);
    case _ =>
  }

  lemma MessageMirrors(s: State, h: History, hash: Policy -> string, e: Envelope, sent: bool)
    requires Mirrors(s, h, hash) && Genuine(h, hash, e)
    ensures Mirrors(OnMessage(s, e, sent), h, hash)
  {
    match e
    case SnapshotEnvelope(_, _, _, _, _) => SnapshotMirrors(s, h, hash, e, sent);
    case DeltaEnvelope(d) => DeltaMirrors(s, h, hash, d, sent);
    case OutcomeEnvelope(_, _, _) => OtherMirrors(s, h, hash, e, sent);
    case BadShape => OtherMirrors(s, h, hash, e, sent);
  }

  lemma SameMirrors(s: State, t: State, h: History, hash: Policy -> string)
    requires Mirrors(s, h, hash) && t.trace == s.trace
    requires t.bound == s.bound && t.cursor == s.cursor && t.projection == s.projection
    ensures Mirrors(t, h, hash)
  {
  }

  lemma DroppedMirrors(s: State, h: History, hash: Policy -> string)
    requires AcksAreTrue(h, hash, s.trace)
    ensures Mirrors(DropProjection(FailPending(s)), h, hash)
  {
  }

  lemma OtherMirrors(s: State, h: History, hash: Policy -> string, e: Envelope, sent: bool)
    requires Mirrors(s, h, hash) && (e.BadShape? || e.OutcomeEnvelope?)
    ensures Mirrors(OnMessage(s, e, sent), h, hash)
  {
    if ParseInbound(e).Err? {
      DroppedMirrors(s.(link := ProtocolRefused), h, hash);
    } else {
      OutcomeOnly(s, e.verdict, e.correlation);
      SameMirrors(s, TakeOutcome(s, e.verdict, e.correlation), h, hash);
    }
  }

  lemma OutcomeOnly(s: State, verdict: Verdict, correlation: nat)
    ensures var t := TakeOutcome(s, verdict, correlation); t == s.(command := t.command)
  {
  }

  lemma AskMirrors(s: State, h: History, hash: Policy -> string, sent: bool)
    requires Mirrors(s, h, hash)
    ensures Mirrors(RequestSnapshot(s, sent), h, hash)
  {
  }

  lemma ApplyMirrors(s: State, h: History, hash: Policy -> string, urlValid: bool, sent: bool)
    requires Mirrors(s, h, hash)
    ensures Mirrors(Apply(s, urlValid, sent), h, hash)
  {
  }

  /** Replica refinement: for every Host history and every delivery that loses, duplicates or
      reorders its snapshots and deltas, among whatever else happens. */
  lemma {:induction false} ReplicaIsTrue(h: History, hash: Policy -> string, events: seq<Event>)
    requires AllGenuine(h, hash, events)
    ensures Mirrors(Run(events), h, hash)
  {
    if events != [] {
      ReplicaIsTrue(h, hash, Front(events));
      assert Last(events) == events[|events| - 1];
      StepMirrors(Run(Front(events)), h, hash, Last(events));
    }
  }

  /** A refused delta changes nothing on screen: the client only asks for a snapshot. */
  lemma RefusedDeltaChangesNothing(s: State, d: Delta, sent: bool)
    requires s.cursor.Some? && s.projection.Some? && ApplyDelta(s.cursor.value, s.projection.value, d).None?
    ensures TakeDelta(s, d, sent) == s.(nextId := s.nextId + 2, trace := s.trace + if sent then [Ask(s.bound)] else [])
  {
    assert s.trace + [] == s.trace;
  }

  // ---------------------------------------------------------------- the one write

  /** Every key in use belongs to one mode. */
  ghost predicate KeyHasMode(trace: seq<Sent>, key: nat, mode: RequestedMode) {
    forall k :: 0 <= k < |trace| && trace[k].Write? && trace[k].key == key ==> trace[k].mode == mode
  }

  ghost predicate IdsUsed(trace: seq<Sent>, nextId: nat) {
    forall k :: 0 <= k < |trace| && trace[k].Write? ==> trace[k].key < nextId && trace[k].correlation < nextId
  }

  ghost predicate KeysAgree(trace: seq<Sent>) {
    forall k :: 0 <= k < |trace| && trace[k].Write? ==> KeyHasMode(trace, trace[k].key, trace[k].mode)
  }

  ghost predicate CorrelationsDiffer(trace: seq<Sent>) {
    forall j, k :: 0 <= j < k < |trace| && trace[j].Write? && trace[k].Write? ==>
      trace[j].correlation < trace[k].correlation
  }

  /** A write waits with its timer running, below the timeout, under the identity last sent. */
  ghost predicate CommandInv(s: State) {
    && IdsUsed(s.trace, s.nextId) && KeysAgree(s.trace) && CorrelationsDiffer(s.trace)
    && (s.command.Failed? ==> s.command.key < s.nextId && KeyHasMode(s.trace, s.command.key, s.command.mode))
    && (s.command.Awaiting? ==>
          && s.processing && 0.0 <= s.command.elapsed < PENDING_TIMEOUT_SECONDS
          && s.command.key < s.nextId && s.command.correlation < s.nextId
          && KeyHasMode(s.trace, s.command.key, s.command.mode))
  }

  lemma SendKeeps(s: State, ids: nat, what: Sent, sent: bool)
    requires CommandInv(s) && !what.Write?
    ensures CommandInv(Send(s, ids, what, sent))
  {
  }

  lemma AcknowledgeKeeps(s: State, sent: bool)
    requires CommandInv(s)
    ensures CommandInv(SendAcknowledge(s, sent))
  {
    if s.cursor.Some? {
      SendKeeps(s, 2, Ack(s.cursor.value.version, s.cursor.value.sequence, s.cursor.value.stateHash), sent);
    }
  }

  lemma FailKeeps(s: State)
    requires CommandInv(s)
    ensures CommandInv(FailPending(s)) && CommandInv(DropProjection(FailPending(s)))
  {
  }

  lemma DeltaKeeps(s: State, d: Delta, sent: bool)
    requires CommandInv(s)
    ensures CommandInv(TakeDelta(s, d, sent))
  {
    SendKeeps(s, 2, Ask(s.bound), sent);
    if s.cursor.Some? && s.projection.Some? {
      var r := ApplyDelta(s.cursor.value, s.projection.value, d);
      if r.Some? {
        AcknowledgeKeeps(s.(cursor := Some(r.value.0), projection := Some(r.value.1), lastEvent := Some(d.id),
                            link := Ready), sent);
      }
    }
  }

  lemma SnapshotKeeps(s: State, c: Cursor, p: Policy, sent: bool)
    requires CommandInv(s)
    ensures CommandInv(TakeSnapshot(s, c, p, sent))
  {
    AcknowledgeKeeps(s.(bound := true, lastEvent := Some(c.snapshotId), cursor := Some(c), projection := Some(p),
                        selection := None, link := Ready), sent);
  }

  lemma OutcomeKeeps(s: State, verdict: Verdict, correlation: nat)
    requires CommandInv(s)
    ensures CommandInv(TakeOutcome(s, verdict, correlation))
  {
  }

  lemma MessageKeeps(s: State, e: Envelope, sent: bool)
    requires CommandInv(s)
    ensures CommandInv(OnMessage(s, e, sent))
  {
    match ParseInbound(e)
    case Err(_) => FailKeeps(s.(link := ProtocolRefused));
    case Ok(Snapshot(c, p)) => SnapshotKeeps(s, c, p, sent);
    case Ok(Change(d)) => DeltaKeeps(s, d, sent);
    case Ok(Outcome(verdict, correlation)) => OutcomeKeeps(s, verdict, correlation);
  }

  lemma WriteKeeps(s: State, urlValid: bool, sent: bool)
    requires CommandInv(s)
    ensures CommandInv(Apply(s, urlValid, sent))
  {
  }

  lemma SelectKeeps(s: State, mode: RequestedMode, urlValid: bool)
    requires CommandInv(s)
    ensures CommandInv(SelectMode(s, mode, urlValid))
  {
  }

  lemma ProcessKeeps(s: State, delta: real)
    requires CommandInv(s) && delta >= 0.0
    ensures CommandInv(Process(s, delta))
  {
  }

  lemma LinkKeeps(s: State, closed: bool, opens: bool)
    requires CommandInv(s)
    ensures CommandInv(Connect(s, closed, opens)) && CommandInv(Disconnect(s, closed))
    ensures CommandInv(Closed(s)) && CommandInv(Unavailable(s)) && CommandInv(s.(link := Connected))
  {
    FailKeeps(s);
    FailKeeps(s.(link := Disconnected));
    FailKeeps(s.(link := Offline));
  }

  /** Time only moves forward. */
  predicate Forward(e: Event) {
    e.EvProcess? ==> e.delta >= 0.0
  }

  lemma StepKeepsCommand(s: State, e: Event)
    requires CommandInv(s) && Forward(e)
    ensures CommandInv(Step(s, e))
  {
    match e
    case EvMessage(envelope, sent) => MessageKeeps(s, envelope, sent);
    case EvSelect(mode, urlValid) => SelectKeeps(s, mode, urlValid);
    case EvApply(urlValid, sent) => WriteKeeps(s, urlValid, sent);
    case EvProcess(delta) => ProcessKeeps(s, delta);
    case EvConnect(closed, opens) => LinkKeeps(s, closed, opens);
    case EvDisconnect(closed) => LinkKeeps(s, closed, false);
    case EvAskSnapshot(_, sent) => SendKeeps(s, 2, Ask(s.bound), sent);
    case EvOpened => LinkKeeps(s, false, false);
    case EvClosed => LinkKeeps(s, false, false);
    case EvUnavailable => LinkKeeps(s, false, false);
    case EvForeign =>
    case EvMalformed =>
  }

  lemma {:induction false} RunKeepsCommand(events: seq<Event>)
    requires forall k :: 0 <= k < |events| ==> Forward(events[k])
    ensures CommandInv(Run(events))
  {
    if events != [] {
      RunKeepsCommand(Front(events));
      StepKeepsCommand(Run(Front(events)), Last(events));
    }
  }

  /** Over every history an idempotency key stands for one requested mode. */
  lemma KeyDeterminesMode(events: seq<Event>, j: nat, k: nat)
    requires forall n :: 0 <= n < |events| ==> Forward(events[n])
    requires j < |Run(events).trace| && k < |Run(events).trace|
    requires Run(events).trace[j].Write? && Run(events).trace[k].Write?
    requires Run(events).trace[j].key == Run(events).trace[k].key
    ensures Run(events).trace[j].mode == Run(events).trace[k].mode
  {
    RunKeepsCommand(events);
    assert KeyHasMode(Run(events).trace, Run(events).trace[j].key, Run(events).trace[j].mode);
  }

  /** The causes that end a waiting write. */
  predicate Ends(s: State, e: Event)
    requires s.command.Awaiting?
  {
    match e
    case EvMessage(envelope, _) =>
      || ParseInbound(envelope).Err?
      || (envelope.OutcomeEnvelope? && envelope.correlation == s.command.correlation)
    case EvProcess(delta) => s.processing && s.command.elapsed + delta >= PENDING_TIMEOUT_SECONDS
    case EvConnect(closed, opens) => closed && opens
    case EvDisconnect(closed) => !closed
    case EvClosed => true
    case EvUnavailable => true
    case _ => false
  }

  predicate SameWrite(a: Phase, b: Phase) {
    a.Awaiting? && b.Awaiting? && a.correlation == b.correlation && a.key == b.key && a.mode == b.mode
  }

  /** While a write waits no other is sent, and it stays the same write unless one of those causes
      occurs; then it ends, and a failure keeps its key and mode for a retry. */
  lemma WaitingEndsOnlyFor(s: State, e: Event)
    requires s.command.Awaiting?
    ensures SameWrite(s.command, Step(s, e).command) <==> !Ends(s, e)
    ensures Ends(s, e) ==> !Step(s, e).command.Awaiting?
    ensures Step(s, e).command.Failed? ==> Step(s, e).command == Failed(s.command.mode, s.command.key)
  {
    match e
    case EvMessage(envelope, sent) => MessageEndsOnlyFor(s, envelope, sent);
    case _ =>
  }

  lemma MessageEndsOnlyFor(s: State, envelope: Envelope, sent: bool)
    requires s.command.Awaiting?
    ensures var t := OnMessage(s, envelope, sent);
            && (SameWrite(s.command, t.command) <==> !Ends(s, EvMessage(envelope, sent)))
            && (Ends(s, EvMessage(envelope, sent)) ==> !t.command.Awaiting?)
            && (t.command.Failed? ==> t.command == Failed(s.command.mode, s.command.key))
  {
    match ParseInbound(envelope)
    case Err(_) =>
    case Ok(Snapshot(c, p)) =>
    case Ok(Change(d)) => DeltaKeepsCommand(s, d, sent);
    case Ok(Outcome(verdict, correlation)) =>
  }

  lemma DeltaKeepsCommand(s: State, d: Delta, sent: bool)
    ensures TakeDelta(s, d, sent).command == s.command
  {
  }

  lemma NoSecondWrite(s: State, e: Event, k: nat)
    requires s.command.Awaiting? && |s.trace| <= k < |Step(s, e).trace|
    ensures !Step(s, e).trace[k].Write?
  {
    match e
    case EvMessage(envelope, sent) => MessageWritesNothing(s, envelope, sent, k);
    case _ =>
  }

  /** A write is sent only from rest, for the selected mode the Host does not already request, against
      the version on screen, and with a used key if and only if it retries a failed write of that
      same mode. */
  lemma WriteIsAuthored(s: State, urlValid: bool)
    requires CommandInv(s) && WriteAvailable(s, urlValid) && s.bound && s.cursor.Some?
    ensures var t := Apply(s, urlValid, true);
            && !s.command.Awaiting? && t.command.Awaiting?
            && t.trace
               == s.trace + [Write(t.command.correlation, t.command.key, s.selection.value, s.cursor.value.version)]
            && (t.command.key < s.nextId <==> Retries(s.command, s.selection.value))
            && s.nextId <= t.command.correlation != t.command.key
  {
  }

  // ---------------------------------------------------------------- what the operator is offered

  /** Binding, cursor and projection come and go together. */
  predicate Together(s: State) {
    s.projection.Some? == s.cursor.Some? == s.bound
  }

  lemma StepTogether(s: State, e: Event)
    requires Together(s)
    ensures Together(Step(s, e))
  {
    match e
    case EvMessage(envelope, sent) => MessageTogether(s, envelope, sent);
    case _ =>
  }

  lemma MessageTogether(s: State, envelope: Envelope, sent: bool)
    requires Together(s)
    ensures Together(OnMessage(s, envelope, sent))
  {
    match ParseInbound(envelope)
    case Err(_) =>
    case Ok(Snapshot(c, p)) => SnapshotTogether(s, c, p, sent);
    case Ok(Change(d)) => DeltaTogether(s, d, sent);
    case Ok(Outcome(verdict, correlation)) => OutcomeOnly(s, verdict, correlation);
  }

  lemma SnapshotTogether(s: State, c: Cursor, p: Policy, sent: bool)
    ensures Together(TakeSnapshot(s, c, p, sent))
  {
  }

  lemma DeltaTogether(s: State, d: Delta, sent: bool)
    requires Together(s)
    ensures Together(TakeDelta(s, d, sent))
  {
  }

  lemma {:induction false} RunTogether(events: seq<Event>)
    ensures Together(Run(events))
  {
    if events != [] {
      RunTogether(Front(events));
      StepTogether(Run(Front(events)), Last(events));
    }
  }

  /** What is offered is what works: over every history, applying sends a write if and only if a write is
      offered, and otherwise does nothing at all; and pressing a mode does something if and only if a
      selection is offered. */
  lemma OfferedIffTaken(events: seq<Event>, mode: RequestedMode, urlValid: bool)
    ensures var s := Run(events);
            && (WriteAvailable(s, urlValid) <==> |Apply(s, urlValid, true).trace| > |s.trace|)
            && (!WriteAvailable(s, urlValid) ==> Apply(s, urlValid, true) == s == Apply(s, urlValid, false))
            && (SelectionAvailable(s, urlValid) <==> SelectMode(s, mode, urlValid) != s)
  {
    var s := Run(events);
    RunTogether(events);
    assert SelectMode(s, mode, urlValid) != s ==> SelectionAvailable(s, urlValid);
    assert SelectionAvailable(s, urlValid) ==> SelectMode(s, mode, urlValid).selection != s.selection;
  }

  lemma MessageWritesNothing(s: State, envelope: Envelope, sent: bool, k: nat)
    requires |s.trace| <= k < |OnMessage(s, envelope, sent).trace|
    ensures !OnMessage(s, envelope, sent).trace[k].Write?
  {
  }
}
