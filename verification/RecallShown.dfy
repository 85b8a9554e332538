/** What the Recall Policy instrument shows and sends, event by event and over every history, in plain fields. */
module RecallShown {
  import opened Basics
  import opened RecallPolicy
  import opened RecallClient
  import opened RecallTheorems
  import opened RecallOutcomes

  // ---------------------------------------------------------------- what comes in

  /** A snapshot that can be read. */
  predicate BringsSnapshot(e: Event) {
    e.EvMessage? && e.envelope.SnapshotEnvelope? && Parse(e.envelope.state).Ok?
  }

  /** A delta against the version on screen, next in sequence, to a later version, every update readable. */
  predicate BringsDelta(s: State, e: Event) {
    && e.EvMessage? && e.envelope.DeltaEnvelope? && s.cursor.Some? && s.projection.Some?
    && var d, c := e.envelope.delta, s.cursor.value;
       && d.base == c.version && d.sequence == c.sequence + 1 && d.next > c.version
       && ApplyAll(s.projection.value, d.updates).Ok?
  }

  /** A delta that cannot be taken. */
  predicate BringsStray(s: State, e: Event) {
    e.EvMessage? && e.envelope.DeltaEnvelope? && !BringsDelta(s, e)
  }

  /** The link is gone, or something that cannot be read has come. */
  predicate Clears(e: Event) {
    e.EvClosed? || e.EvUnavailable? || (e.EvDisconnect? && !e.closed) || Unreadable(e)
  }

  lemma DeltaTaken(s: State, d: Delta, sent: bool)
    requires BringsDelta(s, EvMessage(DeltaEnvelope(d), sent))
    ensures var c := s.cursor.value.(version := d.next, sequence := d.sequence, stateHash := Some(d.stateHash));
            ApplyDelta(s.cursor.value, s.projection.value, d)
            == Some((c, ApplyAll(s.projection.value, d.updates).value))
  {
  }

  lemma DeltaRefused(s: State, d: Delta, sent: bool)
    requires BringsStray(s, EvMessage(DeltaEnvelope(d), sent))
    ensures TakeDelta(s, d, sent) == RequestSnapshot(s, sent)
  {
  }

  lemma SnapshotTaken(s: State, envelope: Envelope, sent: bool)
    requires BringsSnapshot(EvMessage(envelope, sent))
    ensures var c := Cursor(envelope.id, envelope.version, envelope.sequence, Some(envelope.stateHash));
            OnMessage(s, envelope, sent) == TakeSnapshot(s, c, Parse(envelope.state).value, sent)
  {
  }

  lemma UnreadableTaken(s: State, envelope: Envelope, sent: bool)
    requires Unreadable(EvMessage(envelope, sent))
    ensures OnMessage(s, envelope, sent) == DropProjection(FailPending(s.(link := ProtocolRefused)))
  {
  }

  // ---------------------------------------------------------------- the screen

  /** A readable snapshot is shown itself; a delta that can be taken leads to the state it says; whatever clears
      leaves nothing at all; everything else what was there. */
  predicate Shows(s: State, e: Event, t: State) {
    if Clears(e) then t.projection.None? && t.cursor.None? && t.lastEvent.None? && !t.bound
    else if BringsSnapshot(e) then
      var m := e.envelope;
      && t.projection == Some(Parse(m.state).value) && t.bound && t.lastEvent == Some(m.id)
      && t.cursor == Some(Cursor(m.id, m.version, m.sequence, Some(m.stateHash)))
    else if BringsDelta(s, e) then
      var d := e.envelope.delta;
      && t.projection == Some(ApplyAll(s.projection.value, d.updates).value) && t.lastEvent == Some(d.id)
      && t.cursor == Some(Cursor(s.cursor.value.snapshotId, d.next, d.sequence, Some(d.stateHash)))
      && t.bound == s.bound
    else
      && t.projection == s.projection && t.cursor == s.cursor && t.lastEvent == s.lastEvent && t.bound == s.bound
  }

  /** What each event leaves on the screen. */
  lemma ScreenAfter(s: State, e: Event)
    ensures Shows(s, e, Step(s, e))
  {
    match e
    case EvMessage(envelope, sent) => MessageScreen(s, envelope, sent);
    case _ =>
  }

  lemma MessageScreen(s: State, envelope: Envelope, sent: bool)
    ensures Shows(s, EvMessage(envelope, sent), OnMessage(s, envelope, sent))
  {
    var e := EvMessage(envelope, sent);
    if Unreadable(e) {
      UnreadableTaken(s, envelope, sent);
    } else if BringsSnapshot(e) {
      SnapshotTaken(s, envelope, sent);
    } else if BringsDelta(s, e) {
      DeltaTaken(s, envelope.delta, sent);
    } else if BringsStray(s, e) {
      DeltaRefused(s, envelope.delta, sent);
    } else {
      OutcomeOnly(s, envelope.verdict, envelope.correlation);
    }
  }

  ghost predicate ShownSince(events: seq<Event>, j: int) {
    && 0 <= j < |events| && BringsSnapshot(events[j])
    && forall k :: j < k < |events| ==> !Clears(events[k])
  }

  ghost predicate Shown(events: seq<Event>) {
    exists j :: ShownSince(events, j)
  }

  lemma ShownNext(f: seq<Event>, e: Event)
    ensures Shown(f + [e]) <==> !Clears(e) && (BringsSnapshot(e) || Shown(f))
  {
    var events := f + [e];
    if BringsSnapshot(e) { assert ShownSince(events, |f|); }
    if !Clears(e) && Shown(f) {
      var j :| ShownSince(f, j);
      assert forall k :: j < k < |events| ==> !Clears(events[k]);
      assert ShownSince(events, j);
    }
    if Shown(events) {
      var j :| ShownSince(events, j);
      if j < |f| {
        assert events[|f|] == e;
        assert forall k :: 0 <= k < |f| ==> events[k] == f[k];
        assert ShownSince(f, j);
      }
    }
  }

  /** Over every history: something is on screen if and only if a readable snapshot came, and since then the
      link did not go and nothing unreadable came; and then the Host is known, and the cursor with it. */
  lemma {:induction false} OnScreenIff(events: seq<Event>)
    ensures var s := Run(events);
            && (s.projection.Some? <==> Shown(events)) && (s.cursor.Some? <==> Shown(events))
            && (s.bound <==> Shown(events)) && (s.lastEvent.Some? <==> Shown(events))
  {
    if events == [] {
      assert forall j :: !ShownSince(events, j);
    } else {
      var f, e := Front(events), Last(events);
      OnScreenIff(f);
      ScreenAfter(Run(f), e);
      ShownNext(f, e);
      assert events == f + [e];
    }
  }

  // ---------------------------------------------------------------- the link and the selection

  /** What each event makes of the link. */
  lemma LinkAfter(s: State, e: Event)
    ensures Step(s, e).link
         == (match e
             case EvOpened => Connected
             case EvClosed => Disconnected
             case EvUnavailable => Offline
             case EvConnect(closed, opens) => if !closed then s.link else if opens then Connecting else Offline
             case EvDisconnect(closed) => if closed then s.link else Disconnected
             case EvMessage(_, _) =>
               if Unreadable(e) then ProtocolRefused
               else if BringsSnapshot(e) || BringsDelta(s, e) then Ready else s.link
             case _ => s.link)
  {
    match e
    case EvMessage(envelope, sent) => MessageLink(s, envelope, sent);
    case _ =>
  }

  lemma MessageLink(s: State, envelope: Envelope, sent: bool)
    ensures var e := EvMessage(envelope, sent);
            OnMessage(s, envelope, sent).link == if Unreadable(e) then ProtocolRefused
                                                 else if BringsSnapshot(e) || BringsDelta(s, e) then Ready else s.link
  {
    var e := EvMessage(envelope, sent);
    if Unreadable(e) {
      UnreadableTaken(s, envelope, sent);
    } else if BringsSnapshot(e) {
      SnapshotTaken(s, envelope, sent);
    } else if BringsDelta(s, e) {
      DeltaTaken(s, envelope.delta, sent);
    } else if BringsStray(s, e) {
      DeltaRefused(s, envelope.delta, sent);
    } else {
      OutcomeOnly(s, envelope.verdict, envelope.correlation);
    }
  }

  /** A mode can be pressed with a valid address, an open link, a projection on screen and no write waiting. */
  predicate Pressable(s: State, urlValid: bool) {
    urlValid && (s.link.Connected? || s.link.Ready?) && s.projection.Some? && !s.command.Awaiting?
  }

  /** What each event makes of the selection: pressing a mode selects it, or gives it up when it was selected;
      a snapshot and whatever clears the screen give any selection up. */
  lemma SelectionAfter(s: State, e: Event)
    ensures Step(s, e).selection
         == if e.EvSelect? && Pressable(s, e.urlValid) then if s.selection == Some(e.mode) then None else Some(e.mode)
            else if Clears(e) || BringsSnapshot(e) then None
            else s.selection
  {
    match e
    case EvMessage(envelope, sent) => MessageSelection(s, envelope, sent);
    case _ =>
  }

  lemma MessageSelection(s: State, envelope: Envelope, sent: bool)
    ensures var e := EvMessage(envelope, sent);
            OnMessage(s, envelope, sent).selection == if Clears(e) || BringsSnapshot(e) then None else s.selection
  {
    var e := EvMessage(envelope, sent);
    if Unreadable(e) {
      UnreadableTaken(s, envelope, sent);
    } else if BringsSnapshot(e) {
      SnapshotTaken(s, envelope, sent);
    } else if BringsDelta(s, e) {
      DeltaTaken(s, envelope.delta, sent);
    } else if BringsStray(s, e) {
      DeltaRefused(s, envelope.delta, sent);
    } else {
      OutcomeOnly(s, envelope.verdict, envelope.correlation);
    }
  }

  // ---------------------------------------------------------------- the write

  /** A write can be authorised for a selected mode the Host neither refused nor already requests. */
  predicate Authorisable(s: State, urlValid: bool) {
    && Pressable(s, urlValid) && s.selection.Some? && s.projection.value.requested != s.selection.value
    && !(s.command.Refused? && s.command.mode == s.selection.value)
  }

  /** What each event makes of the command while no write waits: authorising one sends it and waits, or keeps
      it for a retry when it could not be sent; pressing a mode forgets an answer; a new connection everything. */
  lemma CommandAfter(events: seq<Event>, e: Event)
    requires !Run(events).command.Awaiting?
    ensures var s, c := Run(events), Step(Run(events), e).command;
            match e
            case EvApply(urlValid, sent) =>
              if !Authorisable(s, urlValid) then c == s.command
              else if sent then c.Awaiting? && c.mode == s.selection.value && c.elapsed == 0.0
              else c.Failed? && c.mode == s.selection.value
            case EvSelect(_, urlValid) =>
              if Pressable(s, urlValid) && (s.command.Refused? || s.command.Acknowledged?) then c == NoCommand
              else c == s.command
            case EvConnect(closed, opens) => if closed && opens then c == NoCommand else c == s.command
            case _ => c == s.command
  {
    RunTogether(events);
    match e
    case EvMessage(envelope, sent) => MessageKeepsRest(Run(events), envelope, sent);
    case _ =>
  }

  lemma MessageKeepsRest(s: State, envelope: Envelope, sent: bool)
    requires !s.command.Awaiting?
    ensures OnMessage(s, envelope, sent).command == s.command
  {
    match ParseInbound(envelope)
    case Err(_) =>
    case Ok(Snapshot(c, p)) =>
    case Ok(Change(d)) => DeltaKeepsCommand(s, d, sent);
    case Ok(Outcome(verdict, correlation)) =>
  }

  /** After a frame no more frames are asked for unless a write still waits. */
  lemma FramesStop(s: State, delta: real)
    ensures Step(s, EvProcess(delta)).processing ==> Step(s, EvProcess(delta)).command.Awaiting?
  {
  }

  // ---------------------------------------------------------------- what is sent

  function AckOf(c: Cursor): Sent {
    Ack(c.version, c.sequence, c.stateHash)
  }

  /** What each event sends, when sending works: an acknowledgement of a snapshot or delta taken; a request for
      a snapshot for a delta that is not, or when asked; the write authorised, for the selected mode against
      the version on screen; and nothing else. */
  lemma SentAfter(events: seq<Event>, e: Event)
    ensures var s, t := Run(events), Step(Run(events), e);
            match e
            case EvMessage(_, sent) =>
              if !sent then t.trace == s.trace
              else if BringsSnapshot(e) || BringsDelta(s, e) then
                t.cursor.Some? && t.trace == s.trace + [AckOf(t.cursor.value)]
              else if BringsStray(s, e) then t.trace == s.trace + [Ask(s.bound)]
              else t.trace == s.trace
            case EvAskSnapshot(open, sent) => t.trace == s.trace + (if open && sent then [Ask(s.bound)] else [])
            case EvApply(urlValid, sent) =>
              if !Authorisable(s, urlValid) || !sent then t.trace == s.trace
              else
                && t.command.Awaiting? && s.cursor.Some?
                && t.trace == s.trace + [Write(t.command.correlation, t.command.key, s.selection.value,
                                               s.cursor.value.version)]
            case _ => t.trace == s.trace
  {
    RunTogether(events);
    match e
    case EvMessage(envelope, sent) => MessageSends(Run(events), envelope, sent);
    case _ =>
  }

  lemma MessageSends(s: State, envelope: Envelope, sent: bool)
    requires Together(s)
    ensures var e, t := EvMessage(envelope, sent), OnMessage(s, envelope, sent);
            if !sent then t.trace == s.trace
            else if BringsSnapshot(e) || BringsDelta(s, e) then
              t.cursor.Some? && t.trace == s.trace + [AckOf(t.cursor.value)]
            else if BringsStray(s, e) then t.trace == s.trace + [Ask(s.bound)]
            else t.trace == s.trace
  {
    var e := EvMessage(envelope, sent);
    if Unreadable(e) {
      UnreadableTaken(s, envelope, sent);
    } else if BringsSnapshot(e) {
      SnapshotTaken(s, envelope, sent);
    } else if BringsDelta(s, e) {
      DeltaTaken(s, envelope.delta, sent);
    } else if BringsStray(s, e) {
      DeltaRefused(s, envelope.delta, sent);
    } else {
      OutcomeOnly(s, envelope.verdict, envelope.correlation);
    }
  }
}
