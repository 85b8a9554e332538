/** What becomes of a proposal the Host refused: it is not sent again before a mode is pressed, unless the
    client connects anew while the proposal is still selected. */
module RecallRefusals {
  import opened Basics
  import opened RecallPolicy
  import opened RecallClient
  import opened RecallTheorems

  // ---------------------------------------------------------------- how a history goes on

  function Follow(s: State, more: seq<Event>): State {
    if more == [] then s else Step(Follow(s, Front(more)), Last(more))
  }

  lemma RunMore(events: seq<Event>, e: Event)
    ensures Run(events + [e]) == Step(Run(events), e)
  {
    Snoc(events, e);
  }

  lemma {:induction false} RunOn(events: seq<Event>, more: seq<Event>)
    ensures Run(events + more) == Follow(Run(events), more)
  {
    if more == [] {
      assert events + more == events;
    } else {
      RunOn(events, Front(more));
      assert events + more == (events + Front(more)) + [Last(more)];
      RunMore(events + Front(more), Last(more));
    }
  }

  /** A connection is opened while the mode is selected: a refusal of it is forgotten. */
  predicate Forgets(s: State, e: Event, mode: RequestedMode) {
    e.EvConnect? && e.closed && e.opens && s.selection == Some(mode)
  }

  /** No mode is pressed, and no connection opened while this one is selected. */
  predicate LeftAlone(s: State, more: seq<Event>, mode: RequestedMode) {
    more == []
    || (&& LeftAlone(s, Front(more), mode)
        && !Last(more).EvSelect? && !Forgets(Follow(s, Front(more)), Last(more), mode))
  }

  // ---------------------------------------------------------------- a refusal holds

  /** The mode cannot be sent as things are. */
  predicate Barred(s: State, mode: RequestedMode) {
    s.selection == Some(mode) ==> s.command == Refused(mode)
  }

  /** No write of the mode is among what was sent from the n-th message on. */
  ghost predicate NoWriteSince(trace: seq<Sent>, n: nat, mode: RequestedMode) {
    forall k :: n <= k < |trace| && trace[k].Write? ==> trace[k].mode != mode
  }

  lemma MessageBars(s: State, envelope: Envelope, sent: bool, mode: RequestedMode)
    requires Barred(s, mode)
    ensures var t := OnMessage(s, envelope, sent);
            Barred(t, mode) && s.trace <= t.trace && NoWriteSince(t.trace, |s.trace|, mode)
  {
    match ParseInbound(envelope)
    case Err(_) =>
    case Ok(Snapshot(c, p)) =>
    case Ok(Change(d)) => DeltaKeepsCommand(s, d, sent);
    case Ok(Outcome(verdict, correlation)) => OutcomeOnly(s, verdict, correlation);
  }

  lemma StepBars(s: State, e: Event, mode: RequestedMode)
    requires Barred(s, mode) && !e.EvSelect? && !Forgets(s, e, mode)
    ensures var t := Step(s, e); Barred(t, mode) && s.trace <= t.trace && NoWriteSince(t.trace, |s.trace|, mode)
  {
    match e
    case EvMessage(envelope, sent) => MessageBars(s, envelope, sent, mode);
    case _ =>
  }

  lemma {:induction false} StaysBarred(s: State, more: seq<Event>, mode: RequestedMode)
    requires Barred(s, mode) && LeftAlone(s, more, mode)
    ensures var t := Follow(s, more);
            Barred(t, mode) && s.trace <= t.trace && NoWriteSince(t.trace, |s.trace|, mode)
  {
    if more != [] {
      StaysBarred(s, Front(more), mode);
      StepBars(Follow(s, Front(more)), Last(more), mode);
    }
  }

  /** A proposal the Host refused is not sent again as it stands, whatever happens, before a mode is pressed
      or a connection opened while it is selected. */
  lemma RefusedIsNotRepeated(events: seq<Event>, more: seq<Event>, mode: RequestedMode)
    requires Run(events).command == Refused(mode) && LeftAlone(Run(events), more, mode)
    ensures NoWriteSince(Run(events + more).trace, |Run(events).trace|, mode)
  {
    RunOn(events, more);
    StaysBarred(Run(events), more, mode);
  }

  // ---------------------------------------------------------------- a refusal forgotten

  /** What is selected is selected on a projection. */
  predicate SelectedOnScreen(s: State) {
    Together(s) && (s.selection.Some? ==> s.projection.Some?)
  }

  lemma MessageOnScreen(s: State, envelope: Envelope, sent: bool)
    requires SelectedOnScreen(s)
    ensures SelectedOnScreen(OnMessage(s, envelope, sent))
  {
    MessageTogether(s, envelope, sent);
    match ParseInbound(envelope)
    case Err(_) =>
    case Ok(Snapshot(c, p)) =>
    case Ok(Change(d)) =>
    case Ok(Outcome(verdict, correlation)) => OutcomeOnly(s, verdict, correlation);
  }

  lemma {:induction false} RunOnScreen(events: seq<Event>)
    ensures SelectedOnScreen(Run(events))
  {
    if events != [] {
      var s, e := Run(Front(events)), Last(events);
      RunOnScreen(Front(events));
      StepTogether(s, e);
      if e.EvMessage? { MessageOnScreen(s, e.envelope, e.sent); }
    }
  }

  function OtherMode(mode: RequestedMode): RequestedMode {
    if mode.Auto? then Quiet else Auto
  }

  /** The Host turns to another requested mode. */
  function Turn(c: Cursor, mode: RequestedMode): Event {
    EvMessage(DeltaEnvelope(Delta("turn", c.version, c.version + 1, c.sequence + 1, "turned",
                                  [Update(KRequestedMode, Text(RequestedWire(OtherMode(mode))))])), true)
  }

  lemma TurnIsTaken(s: State, mode: RequestedMode)
    requires SelectedOnScreen(s) && s.projection.Some?
    ensures var t := Step(s, Turn(s.cursor.value, mode));
            && t.projection == Some(s.projection.value.(requested := OtherMode(mode))) && t.cursor.Some? && t.bound
            && t.link.Ready? && t.selection == s.selection && t.command == s.command && s.trace <= t.trace
  {
    var u := Update(KRequestedMode, Text(RequestedWire(OtherMode(mode))));
    var p := s.projection.value;
    assert Front([u]) == [] && Last([u]) == u;
    assert ApplyUpdate(p, u) == Ok(p.(requested := OtherMode(mode)));
    assert ApplyAll(p, [u]) == Ok(p.(requested := OtherMode(mode)));
  }

  /** The selected mode can be applied, but for what the Host requests already. */
  predicate Poised(s: State, mode: RequestedMode) {
    && s.bound && s.cursor.Some? && s.projection.Some? && s.selection == Some(mode) && s.command.NoCommand?
    && (s.link.Connected? || s.link.Ready?)
  }

  lemma PoisedWrites(s: State, mode: RequestedMode)
    requires Poised(s, mode) && s.projection.value.requested != mode
    ensures var t := Step(s, EvApply(true, true)); s.trace <= t.trace && !NoWriteSince(t.trace, |s.trace|, mode)
  {
    var t := Step(s, EvApply(true, true));
    assert t.trace[|s.trace|].Write? && t.trace[|s.trace|].mode == mode;
  }

  lemma FollowOne(s: State, more: seq<Event>, e: Event, mode: RequestedMode)
    ensures Follow(s, more + [e]) == Step(Follow(s, more), e)
    ensures LeftAlone(s, more + [e], mode)
            <==> LeftAlone(s, more, mode) && !e.EvSelect? && !Forgets(Follow(s, more), e, mode)
  {
    Snoc(more, e);
  }

  /** A refusal forgotten, the proposal goes out again once the connection is open. */
  lemma GoesOutAgain(s: State, e: Event, mode: RequestedMode) returns (last: seq<Event>)
    requires SelectedOnScreen(s) && Forgets(s, e, mode)
    ensures var t := Step(s, e);
            && LeftAlone(t, last, mode)
            && s.trace <= Follow(t, last).trace && !NoWriteSince(Follow(t, last).trace, |s.trace|, mode)
  {
    var t := Step(s, e);
    last := [EvOpened];
    FollowOne(t, [], EvOpened, mode);
    assert [] + [EvOpened] == [EvOpened];
    var u := Follow(t, last);
    assert u == t.(link := Connected) && Poised(u, mode);
    if u.projection.value.requested == mode {
      FollowOne(t, last, Turn(u.cursor.value, mode), mode);
      last := last + [Turn(u.cursor.value, mode)];
      TurnIsTaken(u, mode);
      u := Follow(t, last);
    }
    PoisedWrites(u, mode);
    FollowOne(t, last, EvApply(true, true), mode);
    last := last + [EvApply(true, true)];
    WriteSeenFrom(Follow(t, last).trace, |s.trace|, |u.trace|, mode);
  }

  lemma WriteSeenFrom(trace: seq<Sent>, n: nat, m: nat, mode: RequestedMode)
    requires n <= m && !NoWriteSince(trace, m, mode)
    ensures !NoWriteSince(trace, n, mode)
  {
  }

  /** However a history goes on from a refusal, with no mode pressed and no connection opened on the
      selection: the next event lets the proposal go out again, without a mode pressed and with no other
      event like it, if and only if it opens a connection while the proposal is selected. */
  lemma RefusedReturnsIff(events: seq<Event>, more: seq<Event>, e: Event, mode: RequestedMode)
    requires Run(events).command == Refused(mode) && LeftAlone(Run(events), more, mode) && !e.EvSelect?
    ensures (exists last :: && LeftAlone(Run(events + more + [e]), last, mode)
                            && !NoWriteSince(Run(events + more + [e] + last).trace, |Run(events).trace|, mode))
            <==> Forgets(Run(events + more), e, mode)
  {
    var before := events + more;
    RunOn(events, more);
    StaysBarred(Run(events), more, mode);
    RunMore(before, e);
    if Forgets(Run(before), e, mode) {
      RunOnScreen(before);
      var last := GoesOutAgain(Run(before), e, mode);
      RunOn(before + [e], last);
      WriteSeenFrom(Run(before + [e] + last).trace, |Run(events).trace|, |Run(before).trace|, mode);
    } else {
      FollowOne(Run(events), more, e, mode);
      forall last | LeftAlone(Run(before + [e]), last, mode)
        ensures NoWriteSince(Run(before + [e] + last).trace, |Run(events).trace|, mode)
      {
        assert events + (more + [e]) == before + [e];
        StillRefused(events, more + [e], last, mode);
      }
    }
  }

  lemma StillRefused(events: seq<Event>, more: seq<Event>, last: seq<Event>, mode: RequestedMode)
    requires Run(events).command == Refused(mode) && LeftAlone(Run(events), more, mode)
    requires LeftAlone(Run(events + more), last, mode)
    ensures NoWriteSince(Run(events + more + last).trace, |Run(events).trace|, mode)
  {
    RunOn(events, more);
    RunOn(events + more, last);
    StaysBarred(Run(events), more, mode);
    StaysBarred(Run(events + more), last, mode);
  }

  // ---------------------------------------------------------------- one such history

  function Shown(p: Policy): Envelope {
    SnapshotEnvelope("shown", 1, 1, "hash", Print(p))
  }

  /** The client after a snapshot of the state, with nothing selected. */
  function Seen(p: Policy): State {
    State(Ready, true, Some(Cursor("shown", 1, 1, Some("hash"))), Some(View(p)), Some("shown"), None, NoCommand, false,
          3, [Ack(1, 1, Some("hash"))])
  }

  /** The client waiting for the outcome of its first write. */
  function Asking(p: Policy, mode: RequestedMode): State {
    var s := Seen(p);
    s.(selection := Some(mode), command := Awaiting(4, 3, mode, 0.0), processing := true, nextId := 5,
       trace := s.trace + [Write(4, 3, mode, 1)])
  }

  lemma IsSeen(p: Policy)
    requires Readable(p)
    ensures Step(INITIAL, EvMessage(Shown(p), true)) == Seen(p)
  {
    SnapshotRoundTrip(p);
    assert ParseInbound(Shown(p)) == Ok(Snapshot(Cursor("shown", 1, 1, Some("hash")), View(p)));
    assert INITIAL.trace + [Ack(1, 1, Some("hash"))] == Seen(p).trace;
  }

  lemma IsAsked(p: Policy, mode: RequestedMode)
    requires p.requested != mode
    ensures Step(Step(Seen(p), EvSelect(mode, true)), EvApply(true, true)) == Asking(p, mode)
  {
    var s := Seen(p).(selection := Some(mode));
    assert Step(Seen(p), EvSelect(mode, true)) == s;
    assert WriteAvailable(s, true) && s.nextId == 3;
  }

  lemma IsAsking(p: Policy, mode: RequestedMode)
    requires Readable(p) && p.requested != mode
    ensures Run([EvMessage(Shown(p), true), EvSelect(mode, true), EvApply(true, true)]) == Asking(p, mode)
  {
    var shown, select, apply := EvMessage(Shown(p), true), EvSelect(mode, true), EvApply(true, true);
    IsSeen(p);
    IsAsked(p, mode);
    RunMore([], shown);
    RunMore([shown], select);
    RunMore([shown, select], apply);
    assert [] + [shown] == [shown] && [shown] + [select] == [shown, select];
    assert [shown, select] + [apply] == [shown, select, apply];
  }

  function Barring(p: Policy, mode: RequestedMode): State {
    Asking(p, mode).(command := Refused(mode))
  }

  lemma OutcomeIsRead(state: Dictionary)
    requires Parse(state).Ok?
    ensures ParseInbound(OutcomeEnvelope(Refuses, 4, state)) == Ok(Outcome(Refuses, 4))
  {
  }

  lemma RefusalIsTaken(s: State, envelope: Envelope)
    requires s.command.Awaiting? && ParseInbound(envelope) == Ok(Outcome(Refuses, s.command.correlation))
    ensures OnMessage(s, envelope, true) == s.(command := Refused(s.command.mode))
  {
  }

  lemma IsRefused(p: Policy, mode: RequestedMode)
    requires Readable(p)
    ensures Step(Asking(p, mode), EvMessage(OutcomeEnvelope(Refuses, 4, Print(p)), true)) == Barring(p, mode)
  {
    var state := Print(p);
    SnapshotRoundTrip(p);
    OutcomeIsRead(state);
    RefusalIsTaken(Asking(p, mode), OutcomeEnvelope(Refuses, 4, state));
  }

  lemma IsSentAgain(p: Policy, mode: RequestedMode)
    requires p.requested != mode
    ensures var s := Barring(p, mode);
            Step(Step(Step(s, EvConnect(true, true)), EvOpened), EvApply(true, true)).trace
            == s.trace + [Write(6, 5, mode, 1)]
  {
    var s := Barring(p, mode).(link := Connected, command := NoCommand);
    assert Step(Step(Barring(p, mode), EvConnect(true, true)), EvOpened) == s;
    assert WriteAvailable(s, true) && s.nextId == 5;
  }

  lemma ConnectedAnew(before: seq<Event>)
    ensures Run(before + [EvConnect(true, true), EvOpened, EvApply(true, true)])
         == Step(Step(Step(Run(before), EvConnect(true, true)), EvOpened), EvApply(true, true))
  {
    var connect, open, apply := EvConnect(true, true), EvOpened, EvApply(true, true);
    RunMore(before, connect);
    RunMore(before + [connect], open);
    RunMore(before + [connect] + [open], apply);
    assert before + [connect] + [open] + [apply] == before + [connect, open, apply];
  }

  /** The Host refuses, the session is closed behind the client's back, and the operator connects anew. */
  lemma RefusedIsSentAgain(p: Policy, mode: RequestedMode)
    requires Readable(p) && p.requested != mode
    ensures var before := [EvMessage(Shown(p), true), EvSelect(mode, true), EvApply(true, true),
                           EvMessage(OutcomeEnvelope(Refuses, 4, Print(p)), true)];
            var s, t := Run(before), Run(before + [EvConnect(true, true), EvOpened, EvApply(true, true)]);
            s.command == Refused(mode) && t.trace == s.trace + [Write(6, 5, mode, 1)]
  {
    var asked := [EvMessage(Shown(p), true), EvSelect(mode, true), EvApply(true, true)];
    var refusal := EvMessage(OutcomeEnvelope(Refuses, 4, Print(p)), true);
    IsAsking(p, mode);
    IsRefused(p, mode);
    IsSentAgain(p, mode);
    RunMore(asked, refusal);
    ConnectedAnew(asked + [refusal]);
    assert asked + [refusal] == [EvMessage(Shown(p), true), EvSelect(mode, true), EvApply(true, true), refusal];
  }
}
