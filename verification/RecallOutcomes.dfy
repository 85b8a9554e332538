/** How the one write ends, and what becomes of its key. */
module RecallOutcomes {
  import opened Basics
  import opened RecallPolicy
  import opened RecallClient
  import opened RecallTheorems
  import opened RecallRefusals

  // ---------------------------------------------------------------- how a waiting write ends

  /** An outcome that can be read answers this very write. */
  predicate Answers(s: State, e: Event, verdict: Verdict)
    requires s.command.Awaiting?
  {
    && e.EvMessage? && e.envelope.OutcomeEnvelope? && Parse(e.envelope.state).Ok?
    && e.envelope.correlation == s.command.correlation && e.envelope.verdict == verdict
  }

  /** A snapshot, an outcome or a shape that cannot be read. */
  predicate Unreadable(e: Event) {
    e.EvMessage?
    && match e.envelope
       case BadShape => true
       case SnapshotEnvelope(_, _, _, _, state) => Parse(state).Err?
       case OutcomeEnvelope(_, _, state) => Parse(state).Err?
       case DeltaEnvelope(_) => false
  }

  /** Fifteen seconds have passed, the link is gone, or what came cannot be read. */
  predicate Breaks(s: State, e: Event)
    requires s.command.Awaiting?
  {
    || (e.EvProcess? && s.processing && s.command.elapsed + e.delta >= 15.0)
    || e.EvClosed? || e.EvUnavailable? || (e.EvDisconnect? && !e.closed)
    || Unreadable(e)
  }

  /** What each event makes of a waiting write: acknowledged, refused or failed exactly as its own readable
      outcome says; failed besides exactly when it times out, the link goes or something unreadable comes;
      given up exactly by a new connection; and otherwise the same write, older by the frame's time. */
  lemma WriteEndsAs(s: State, e: Event)
    requires s.command.Awaiting?
    ensures var w, c := s.command, Step(s, e).command;
            && (c == Acknowledged(w.mode) <==> Answers(s, e, Accepts))
            && (c == Refused(w.mode) <==> Answers(s, e, Refuses))
            && (c == Failed(w.mode, w.key) <==> Answers(s, e, Fails) || Breaks(s, e))
            && (c == NoCommand <==> e.EvConnect? && e.closed && e.opens)
            && (c.Awaiting? ==>
                  c == w.(elapsed := w.elapsed + if e.EvProcess? && s.processing then e.delta else 0.0))
            && (c.Acknowledged? || c.Refused? || c.Failed? ==> c.mode == w.mode)
            && (c.Failed? ==> c.key == w.key)
  {
    match e
    case EvMessage(envelope, sent) => MessageEndsAs(s, envelope, sent);
    case _ =>
  }

  lemma MessageEndsAs(s: State, envelope: Envelope, sent: bool)
    requires s.command.Awaiting?
    ensures var w, c, e := s.command, OnMessage(s, envelope, sent).command, EvMessage(envelope, sent);
            if Unreadable(e) || Answers(s, e, Fails) then c == Failed(w.mode, w.key)
            else if Answers(s, e, Accepts) then c == Acknowledged(w.mode)
            else if Answers(s, e, Refuses) then c == Refused(w.mode)
            else c == w
  {
    match envelope
    case BadShape =>
    case SnapshotEnvelope(_, _, _, _, state) => SnapshotEndsNothing(s, envelope, sent);
    case DeltaEnvelope(d) => DeltaKeepsCommand(s, d, sent);
    case OutcomeEnvelope(verdict, correlation, state) =>
      if Parse(state).Ok? { assert OnMessage(s, envelope, sent) == TakeOutcome(s, verdict, correlation); }
  }

  lemma SnapshotEndsNothing(s: State, envelope: Envelope, sent: bool)
    requires s.command.Awaiting? && envelope.SnapshotEnvelope?
    ensures var c := OnMessage(s, envelope, sent).command;
            c == if Parse(envelope.state).Err? then Failed(s.command.mode, s.command.key) else s.command
  {
  }

  // ---------------------------------------------------------------- a key that is spent

  /** The key was used, and no write waits or can be retried under it. */
  predicate Spent(s: State, key: nat) {
    key < s.nextId && (s.command.Awaiting? || s.command.Failed? ==> s.command.key != key)
  }

  ghost predicate NotSentSince(trace: seq<Sent>, n: nat, key: nat) {
    forall k :: n <= k < |trace| && trace[k].Write? ==> trace[k].key != key
  }

  lemma MessageSpends(s: State, envelope: Envelope, sent: bool, key: nat)
    requires Spent(s, key)
    ensures var t := OnMessage(s, envelope, sent);
            Spent(t, key) && s.trace <= t.trace && NotSentSince(t.trace, |s.trace|, key)
  {
    match ParseInbound(envelope)
    case Err(_) =>
    case Ok(Snapshot(c, p)) =>
    case Ok(Change(d)) => DeltaKeepsCommand(s, d, sent);
    case Ok(Outcome(verdict, correlation)) => OutcomeOnly(s, verdict, correlation);
  }

  lemma StepSpends(s: State, e: Event, key: nat)
    requires Spent(s, key)
    ensures var t := Step(s, e); Spent(t, key) && s.trace <= t.trace && NotSentSince(t.trace, |s.trace|, key)
  {
    match e
    case EvMessage(envelope, sent) => MessageSpends(s, envelope, sent, key);
    case _ =>
  }

  lemma {:induction false} StaysSpent(s: State, more: seq<Event>, key: nat)
    requires Spent(s, key)
    ensures var t := Follow(s, more); Spent(t, key) && s.trace <= t.trace && NotSentSince(t.trace, |s.trace|, key)
  {
    if more != [] {
      StaysSpent(s, Front(more), key);
      StepSpends(Follow(s, Front(more)), Last(more), key);
    }
  }

  /** A write the Host accepted or refused is over: whatever happens next, its key is never sent again. */
  lemma AnsweredKeyIsSpent(events: seq<Event>, e: Event, more: seq<Event>)
    requires forall k :: 0 <= k < |events| ==> Forward(events[k])
    requires Run(events).command.Awaiting?
    requires Answers(Run(events), e, Accepts) || Answers(Run(events), e, Refuses)
    ensures NotSentSince(Run(events + [e] + more).trace, |Run(events).trace|, Run(events).command.key)
  {
    var s := Run(events);
    RunKeepsCommand(events);
    WriteEndsAs(s, e);
    RunMore(events, e);
    StepIdsGrow(s, e);
    RunOn(events + [e], more);
    AnsweredSendsNothing(s, e);
    StaysSpent(Step(s, e), more, s.command.key);
  }

  lemma StepIdsGrow(s: State, e: Event)
    ensures s.nextId <= Step(s, e).nextId
  {
  }

  lemma AnsweredSendsNothing(s: State, e: Event)
    requires s.command.Awaiting? && (Answers(s, e, Accepts) || Answers(s, e, Refuses))
    ensures Step(s, e).trace == s.trace
  {
  }
}
