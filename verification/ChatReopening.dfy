/** Exactly when a say can be injected twice, and when two reports can go out under one key: once a say is
    said again after its report was processed and its line dropped. */
module ChatReopening {
  import opened Basics
  import opened ChatAnswer
  import opened ChatModel
  import opened ChatTheorems
  import opened ChatSafety
  import opened ChatRounds

  // ---------------------------------------------------------------- how a history goes on

  function Follow(generated: Generated, s: State, more: seq<Event>): State {
    if more == [] then s else Step(generated, Follow(generated, s, Front(more)), Last(more))
  }

  /** None of these events says a say again after its report was processed and its line dropped. */
  predicate NoneReopens(generated: Generated, s: State, more: seq<Event>) {
    more == []
    || (NoneReopens(generated, s, Front(more)) && !Reopens(Follow(generated, s, Front(more)), Last(more)))
  }

  lemma {:induction false} RunOn(generated: Generated, events: seq<Event>, more: seq<Event>)
    ensures Run(generated, events + more) == Follow(generated, Run(generated, events), more)
    ensures NoReopening(generated, events + more)
            <==> NoReopening(generated, events) && NoneReopens(generated, Run(generated, events), more)
  {
    if more == [] {
      assert events + more == events;
    } else {
      RunOn(generated, events, Front(more));
      assert events + more == (events + Front(more)) + [Last(more)];
      RunConcat(generated, events + Front(more), Last(more));
      NoReopeningStep(generated, events + Front(more), Last(more));
    }
  }

  lemma {:induction false} FollowThen(generated: Generated, s: State, more: seq<Event>, rest: seq<Event>)
    ensures Follow(generated, s, more + rest) == Follow(generated, Follow(generated, s, more), rest)
    ensures NoneReopens(generated, s, more + rest)
            <==> NoneReopens(generated, s, more) && NoneReopens(generated, Follow(generated, s, more), rest)
  {
    if rest == [] {
      assert more + rest == more;
    } else {
      FollowThen(generated, s, more, Front(rest));
      assert more + rest == (more + Front(rest)) + [Last(rest)];
      Snoc(more + Front(rest), Last(rest));
    }
  }

  /** Some history goes on from s to t, and reopens nothing on its way. */
  ghost predicate Leads(generated: Generated, s: State, t: State) {
    exists more :: NoneReopens(generated, s, more) && Follow(generated, s, more) == t
  }

  lemma LeadsBack(generated: Generated, s: State)
    ensures Leads(generated, s, s)
  {
    assert NoneReopens(generated, s, []) && Follow(generated, s, []) == s;
  }

  lemma LeadsOn(generated: Generated, s: State, t: State, e: Event)
    requires Leads(generated, s, t) && !Reopens(t, e)
    ensures Leads(generated, s, Step(generated, t, e))
  {
    var more :| NoneReopens(generated, s, more) && Follow(generated, s, more) == t;
    Snoc(more, e);
    assert NoneReopens(generated, s, more + [e]) && Follow(generated, s, more + [e]) == Step(generated, t, e);
  }

  lemma LeadsThen(generated: Generated, s: State, t: State, u: State)
    requires Leads(generated, s, t) && Leads(generated, t, u)
    ensures Leads(generated, s, u)
  {
    var more :| NoneReopens(generated, s, more) && Follow(generated, s, more) == t;
    var rest :| NoneReopens(generated, t, rest) && Follow(generated, t, rest) == u;
    FollowThen(generated, s, more, rest);
    assert NoneReopens(generated, s, more + rest) && Follow(generated, s, more + rest) == u;
  }

  // ---------------------------------------------------------------- the line to be injected again

  /** The say's new line, with nothing further down that answers it, is among those still held. */
  ghost predicate Waits(s: State, p: nat, say: string) {
    && Base(s) && !s.stopped
    && WasInjected(s.trace, say) && Key(say) in s.processed
    && 0 < p < |s.log| <= p + CHAT_MAX_ENTRIES && s.log[p] == Line(Operator, say)
    && forall k :: p < k < |s.log| ==> s.log[k] != Line(Spirit, say)
  }

  lemma InjectedStays(t: seq<Entry>, more: seq<Entry>, say: string)
    requires WasInjected(t, say) && t <= more
    ensures WasInjected(more, say)
  {
    var k :| 0 <= k < |t| && t[k].Injected? && t[k].say == say;
    assert more[k] == t[k];
  }

  lemma Grows(generated: Generated, s: State, e: Event)
    ensures var t := Step(generated, s, e);
            && s.trace <= t.trace && s.sent <= t.sent && s.processed <= t.processed && s.log <= t.log
            && (t.stopped <==> s.stopped || e.EvStop?)
            && (e.EvOperator? || e.EvHost? || t.log == s.log)
  {
  }

  lemma StillWaits(generated: Generated, s: State, e: Event, p: nat, say: string)
    requires Waits(s, p, say) && !e.EvOperator? && !e.EvHost? && !e.EvStop?
    ensures Waits(Step(generated, s, e), p, say) && Step(generated, s, e).log == s.log
  {
    StepBase(generated, s, e);
    Grows(generated, s, e);
    InjectedStays(s.trace, Step(generated, s, e).trace, say);
  }

  /** One more line, other than an answer to the say. */
  lemma WaitsLonger(generated: Generated, s: State, e: Event, line: Line, p: nat, say: string)
    requires Waits(s, p, say) && |s.log| < p + CHAT_MAX_ENTRIES && !e.EvStop? && line != Line(Spirit, say)
    requires var t := Step(generated, s, e); t.log == s.log || t.log == s.log + [line]
    ensures Waits(Step(generated, s, e), p, say)
  {
    StepBase(generated, s, e);
    Grows(generated, s, e);
    InjectedStays(s.trace, Step(generated, s, e).trace, say);
  }

  // ---------------------------------------------------------------- coming to rest

  predicate Silent(s: State) {
    s.polling.None? && !s.reporting
  }

  predicate AtRest(s: State) {
    Silent(s) && s.pendingSay.None? && s.settled.None?
  }

  /** A settled reply that opens no turn. */
  ghost predicate Replies(generated: Generated, reply: Message) {
    IsSettled(reply) && !OpensTurn(generated, reply)
  }

  /** The report of the open say is on its way. */
  ghost predicate OnItsWay(s: State) {
    && s.reporting && s.settled.Some? && s.polling.None?
    && s.sent != [] && Last(s.sent) == s.settled.value
  }

  lemma FallsSilent(generated: Generated, s: State, p: nat, say: string) returns (t: State)
    requires Waits(s, p, say)
    ensures Leads(generated, s, t) && Waits(t, p, say) && Silent(t) && t.log == s.log
  {
    LeadsBack(generated, s);
    StillWaits(generated, s, EvSnapshotLost, p, say);
    LeadsOn(generated, s, s, EvSnapshotLost);
    var u := Step(generated, s, EvSnapshotLost);
    StillWaits(generated, u, EvFailed, p, say);
    LeadsOn(generated, s, u, EvFailed);
    t := Step(generated, u, EvFailed);
  }

  lemma Answers(generated: Generated, s: State, reply: Message)
    requires Base(s) && !s.stopped && Silent(s) && s.pendingSay.Some? && s.settled.None? && Replies(generated, reply)
    ensures var say := s.pendingSay.value;
            var r := ReportFor(s, say, Answer(reply.text, reply.thoughts, OutcomeOf(reply)));
            var t := TurnEnd(s, generated, [Origin(say), reply], true);
            t.sent == s.sent + [r] && t.settled == Some(r) && t.reporting && t.polling.None?
  {
    IsCaptured(generated, s.pendingSay.value, reply);
  }

  lemma IsTransmitted(generated: Generated, s: State, p: nat, say: string, reply: Message) returns (t: State)
    requires Waits(s, p, say) && Silent(s) && s.pendingSay.Some? && Replies(generated, reply)
    ensures Leads(generated, s, t) && Waits(t, p, say) && OnItsWay(t) && t.log == s.log
  {
    var e := if s.settled.None? then EvTurnEnd([Origin(s.pendingSay.value), reply], true) else EvTick(true, true);
    if s.settled.None? { Answers(generated, s, reply); }
    LeadsBack(generated, s);
    StillWaits(generated, s, e, p, say);
    LeadsOn(generated, s, s, e);
    t := Step(generated, s, e);
  }

  /** The Host takes in the report on its way, unless it has it already. */
  lemma IsTaken(generated: Generated, s: State, p: nat, say: string) returns (t: State)
    requires Waits(s, p, say) && OnItsWay(s) && |s.log| < p + CHAT_MAX_ENTRIES
    ensures Leads(generated, s, t) && Waits(t, p, say) && OnItsWay(t) && t.settled.value.key in t.processed
  {
    LeadsBack(generated, s);
    t := s;
    var r := s.settled.value;
    if r.key !in s.processed {
      var e := EvHost(|s.sent| - 1);
      WaitsLonger(generated, s, e, Line(Spirit, r.turnId), p, say);
      LeadsOn(generated, s, s, e);
      t := Step(generated, s, e);
    }
  }

  lemma IsAcked(generated: Generated, s: State, p: nat, say: string) returns (t: State)
    requires Waits(s, p, say) && OnItsWay(s) && s.settled.value.key in s.processed
    ensures Leads(generated, s, t) && Waits(t, p, say) && AtRest(t)
  {
    LeadsBack(generated, s);
    StillWaits(generated, s, EvAcked, p, say);
    LeadsOn(generated, s, s, EvAcked);
    t := Step(generated, s, EvAcked);
  }

  lemma IsReportedToHost(generated: Generated, s: State, p: nat, say: string, reply: Message) returns (t: State)
    requires Waits(s, p, say) && |s.log| < p + CHAT_MAX_ENTRIES && Replies(generated, reply)
    requires Silent(s) && s.pendingSay.Some?
    ensures Leads(generated, s, t) && Waits(t, p, say) && AtRest(t)
  {
    var u := IsTransmitted(generated, s, p, say, reply);
    var v := IsTaken(generated, u, p, say);
    LeadsThen(generated, s, u, v);
    t := IsAcked(generated, v, p, say);
    LeadsThen(generated, s, v, t);
  }

  lemma ComesToRest(generated: Generated, s: State, p: nat, say: string, reply: Message) returns (t: State)
    requires Waits(s, p, say) && |s.log| < p + CHAT_MAX_ENTRIES && Replies(generated, reply)
    ensures Leads(generated, s, t) && Waits(t, p, say) && AtRest(t)
  {
    t := FallsSilent(generated, s, p, say);
    if t.pendingSay.Some? {
      var u := t;
      t := IsReportedToHost(generated, u, p, say, reply);
      LeadsThen(generated, s, u, t);
    }
  }

  // ---------------------------------------------------------------- until the line is the oldest held

  function Longest(log: seq<Line>): nat {
    if log == [] then 0
    else
      var n := Longest(Front(log));
      if |Last(log).turnId| > n then |Last(log).turnId| else n
  }

  lemma {:induction false} LongestBounds(log: seq<Line>, k: nat)
    requires k < |log|
    ensures |log[k].turnId| <= Longest(log)
  {
    if k < |log| - 1 { LongestBounds(Front(log), k); }
  }

  /** A say id longer than any in the log. */
  function Fresh(log: seq<Line>): string {
    Id(Longest(log))
  }

  lemma FreshIsNew(log: seq<Line>)
    ensures !Blank(Fresh(log)) && !Says(log, Fresh(log)) && !Says(Held(log), Fresh(log))
  {
    IdsDiffer(Longest(log), 0);
    forall k: nat | k < |log| { LongestBounds(log, k); }
    if Says(Held(log), Fresh(log)) { HeldIsSaid(log, Fresh(log)); }
  }

  lemma {:induction false} BecomesOldest(generated: Generated, s: State, p: nat, say: string) returns (t: State)
    requires Waits(s, p, say) && AtRest(s)
    ensures Leads(generated, s, t) && Waits(t, p, say) && AtRest(t) && |t.log| == p + CHAT_MAX_ENTRIES
    decreases p + CHAT_MAX_ENTRIES - |s.log|
  {
    LeadsBack(generated, s);
    t := s;
    if |s.log| < p + CHAT_MAX_ENTRIES {
      var e := EvOperator(Fresh(s.log));
      FreshIsNew(s.log);
      WaitsLonger(generated, s, e, Line(Operator, Fresh(s.log)), p, say);
      LeadsOn(generated, s, s, e);
      var u := Step(generated, s, e);
      t := BecomesOldest(generated, u, p, say);
      LeadsThen(generated, s, u, t);
    }
  }

  lemma OldestIsNext(s: State, p: nat, say: string)
    requires Waits(s, p, say) && |s.log| == p + CHAT_MAX_ENTRIES
    ensures Start(|s.log|) == p && NextUnanswered(Held(s.log[..|s.log|])) == 0
  {
    assert s.log[..|s.log|] == s.log;
    var lines := Held(s.log);
    assert forall k :: 0 <= k < |lines| ==> lines[k] == s.log[p + k];
    assert lines[0] == Line(Operator, say) && !Answered(lines, say);
  }

  /** The say is open again, nothing captured for it yet. */
  ghost predicate OpenAgain(s: State, t: State, p: nat, say: string) {
    && Base(t) && !t.stopped && Silent(t) && t.settled.None? && t.pendingSay == Some(say) && t.steps == Some([])
    && s.trace <= t.trace && t.trace != [] && Last(t.trace) == Injected(say, p) && s.sent <= t.sent
    && WasInjected(Front(t.trace), say)
  }

  lemma OldestIsChosen(s: State, p: nat, say: string)
    requires Waits(s, p, say) && AtRest(s) && |s.log| == p + CHAT_MAX_ENTRIES
    ensures var u := Tick(s, true, true);
            u == s.(polling := Some(|s.log|)) && SnapshotBack(u, |s.log|, true, true) == Inject(s, p)
  {
    OldestIsNext(s, p, say);
    var u := s.(polling := Some(|s.log|));
    assert Tick(s, true, true) == u;
    assert u.(polling := None) == s;
  }

  lemma IsOpenAgain(s: State, p: nat, say: string)
    requires Waits(s, p, say) && AtRest(s) && Base(Inject(s, p))
    ensures OpenAgain(s, Inject(s, p), p, say)
  {
    Snoc(s.trace, Injected(say, p));
  }

  lemma IsInjectedAgain(generated: Generated, s: State, p: nat, say: string) returns (t: State)
    requires Waits(s, p, say) && AtRest(s) && |s.log| == p + CHAT_MAX_ENTRIES
    ensures Leads(generated, s, t) && OpenAgain(s, t, p, say)
  {
    var first, second := EvTick(true, true), EvSnapshot(|s.log|, true, true);
    t := Inject(s, p);
    LeadsBack(generated, s);
    LeadsOn(generated, s, s, first);
    LeadsOn(generated, s, Step(generated, s, first), second);
    StepBase(generated, s, first);
    StepBase(generated, Step(generated, s, first), second);
    OldestIsChosen(s, p, say);
    assert Step(generated, Step(generated, s, first), second) == t;
    IsOpenAgain(s, p, say);
  }

  // ---------------------------------------------------------------- after a say was said again

  lemma {:induction false} FollowGrows(generated: Generated, s: State, more: seq<Event>)
    ensures s.trace <= Follow(generated, s, more).trace && s.sent <= Follow(generated, s, more).sent
  {
    if more != [] {
      FollowGrows(generated, s, Front(more));
      Grows(generated, Follow(generated, s, Front(more)), Last(more));
    }
  }

  lemma LeadsGrows(generated: Generated, s: State, t: State)
    requires Leads(generated, s, t)
    ensures s.trace <= t.trace && s.sent <= t.sent
  {
    var more :| NoneReopens(generated, s, more) && Follow(generated, s, more) == t;
    FollowGrows(generated, s, more);
  }

  /** What the Host and the doorman make of a say said again. */
  lemma SaidAgainWaits(generated: Generated, s: State, e: Event)
    requires Base(s) && Reopens(s, e) && !s.stopped
    ensures Waits(Step(generated, s, e), |s.log|, e.turnId)
  {
    StepBase(generated, s, e);
    var k :| 0 <= k < |s.log| && s.log[k] == Line(Operator, e.turnId);
    assert !Blank(e.turnId);
    var j :| 0 <= j < |s.log| && s.log[j] == Line(Spirit, e.turnId);
    assert WasInjected(s.trace, s.log[j].turnId);
  }

  lemma OpensAgain(generated: Generated, s: State, e: Event, reply: Message) returns (t: State)
    requires Base(s) && Reopens(s, e) && !s.stopped && Replies(generated, reply)
    ensures Leads(generated, Step(generated, s, e), t) && OpenAgain(s, t, |s.log|, e.turnId)
  {
    var p, first := |s.log|, Step(generated, s, e);
    SaidAgainWaits(generated, s, e);
    var u := ComesToRest(generated, first, p, e.turnId, reply);
    var v := BecomesOldest(generated, u, p, e.turnId);
    LeadsThen(generated, first, u, v);
    t := IsInjectedAgain(generated, v, p, e.turnId);
    LeadsThen(generated, first, v, t);
    LeadsGrows(generated, first, v);
    Grows(generated, s, e);
  }

  /** Some answer was captured once, if a report was ever made. */
  ghost predicate HasReplied(generated: Generated, s: State) {
    s.sent != [] || s.settled.Some? ==> exists reply :: Replies(generated, reply)
  }

  lemma CaptureReplies(generated: Generated, messages: seq<Message>, say: string)
    requires Capture(generated, messages, say).Some?
    ensures exists reply :: Replies(generated, reply)
  {
    var owned := Owned(generated, messages, say);
    assert Replies(generated, owned[FirstSettled(owned)]);
  }

  lemma {:induction false} RunReplies(generated: Generated, events: seq<Event>)
    ensures HasReplied(generated, Run(generated, events))
  {
    if events != [] {
      var s, e := Run(generated, Front(events)), Last(events);
      RunReplies(generated, Front(events));
      if e.EvTurnEnd? && s.pendingSay.Some? && Capture(generated, e.messages, s.pendingSay.value).Some? {
        CaptureReplies(generated, e.messages, s.pendingSay.value);
      }
    }
  }

  // ---------------------------------------------------------------- injections

  ghost predicate InjectsOnce(t: seq<Entry>) {
    forall j, k :: 0 <= j < k < |t| && t[j].Injected? && t[k].Injected? ==> t[j].say != t[k].say
  }

  lemma InjectsTwice(t: seq<Entry>, say: string, p: nat)
    requires t != [] && Last(t) == Injected(say, p) && WasInjected(Front(t), say)
    ensures !InjectsOnce(t)
  {
    var j :| 0 <= j < |t| - 1 && Front(t)[j].Injected? && Front(t)[j].say == say;
    assert t[j] == Front(t)[j];
  }

  /** A stopped doorman injects and transmits nothing. */
  lemma {:induction false} StoppedStays(generated: Generated, s: State, more: seq<Event>)
    requires s.stopped && InjectsOnce(s.trace)
    ensures var t := Follow(generated, s, more); t.stopped && InjectsOnce(t.trace) && t.sent == s.sent
  {
    if more != [] { StoppedStays(generated, s, Front(more)); }
  }

  lemma RunInjectsOnce(generated: Generated, events: seq<Event>)
    requires NoReopening(generated, events)
    ensures InjectsOnce(Run(generated, events).trace)
  {
    RunKeeps(generated, events);
  }

  /** Transmissions under one key carry one report. */
  ghost predicate OneReportEach(s: State) {
    forall j, k :: 0 <= j < |s.sent| && 0 <= k < |s.sent| && s.sent[j].key == s.sent[k].key ==> s.sent[j] == s.sent[k]
  }

  lemma RunAgrees(generated: Generated, events: seq<Event>)
    requires NoReopening(generated, events)
    ensures OneReportEach(Run(generated, events))
  {
    var n := |Run(generated, events).sent|;
    forall j, k | 0 <= j < n && 0 <= k < n { RetriesRepeatTheReport(generated, events, j, k); }
  }

  /** The event opens a closed say again. */
  predicate OpensClosed(s: State, e: Event) {
    Reopens(s, e) && !s.stopped
  }

  lemma StandsUnlessOpened(generated: Generated, events: seq<Event>, e: Event, more: seq<Event>)
    requires NoReopening(generated, events) && !OpensClosed(Run(generated, events), e)
    requires NoneReopens(generated, Run(generated, events + [e]), more)
    ensures InjectsOnce(Run(generated, events + [e] + more).trace) && OneReportEach(Run(generated, events + [e] + more))
  {
    var s := Run(generated, events);
    RunOn(generated, events + [e], more);
    RunConcat(generated, events, e);
    if Reopens(s, e) {
      RunAgrees(generated, events);
      RunInjectsOnce(generated, events);
      StoppedStays(generated, Step(generated, s, e), more);
    } else {
      NoReopeningStep(generated, events, e);
      RunAgrees(generated, events + [e] + more);
      RunInjectsOnce(generated, events + [e] + more);
    }
  }

  lemma LeadsRun(generated: Generated, events: seq<Event>, t: State) returns (more: seq<Event>)
    requires Leads(generated, Run(generated, events), t)
    ensures NoneReopens(generated, Run(generated, events), more) && Run(generated, events + more) == t
  {
    var s := Run(generated, events);
    more :| NoneReopens(generated, s, more) && Follow(generated, s, more) == t;
    RunOn(generated, events, more);
  }

  /** An event opening a closed say again leads, with no other doing so, to a second injection of that say. */
  lemma OpenedAgain(generated: Generated, events: seq<Event>, e: Event) returns (t: State, reply: Message)
    requires OpensClosed(Run(generated, events), e)
    ensures Leads(generated, Run(generated, events + [e]), t) && Replies(generated, reply)
    ensures OpenAgain(Run(generated, events), t, |Run(generated, events).log|, e.turnId)
  {
    var s := Run(generated, events);
    RunBase(generated, events);
    RunReplies(generated, events);
    assert WasSent(s.sent, e.turnId);
    reply :| Replies(generated, reply);
    RunConcat(generated, events, e);
    t := OpensAgain(generated, s, e, reply);
  }

  /** As long as no say was said again after its report was processed and its line dropped: an event is
      followed by second injections in no history that goes on without another such event, if and only if
      it is not one itself, or the doorman is stopped. */
  lemma InjectedOnceIff(generated: Generated, events: seq<Event>, e: Event)
    requires NoReopening(generated, events)
    ensures (forall more :: NoneReopens(generated, Run(generated, events + [e]), more)
                            ==> InjectsOnce(Run(generated, events + [e] + more).trace))
            <==> !OpensClosed(Run(generated, events), e)
  {
    if OpensClosed(Run(generated, events), e) {
      var t, _ := OpenedAgain(generated, events, e);
      InjectsTwice(t.trace, e.turnId, |Run(generated, events).log|);
      var more := LeadsRun(generated, events + [e], t);
    } else {
      forall more | NoneReopens(generated, Run(generated, events + [e]), more)
        ensures InjectsOnce(Run(generated, events + [e] + more).trace)
      {
        StandsUnlessOpened(generated, events, e, more);
      }
    }
  }

  // ---------------------------------------------------------------- reports

  /** The say open again is answered with other tool steps than at first. */
  lemma AnsweredOtherwise(generated: Generated, s: State, first: Report, reply: Message) returns (t: State)
    requires Base(s) && !s.stopped && Silent(s) && s.settled.None? && s.pendingSay.Some? && s.steps == Some([])
    requires first in s.sent && first.turnId == s.pendingSay.value && Replies(generated, reply)
    ensures Leads(generated, s, t) && !OneReportEach(t)
  {
    LeadsBack(generated, s);
    var u := s;
    if first.steps == [] {
      StepBase(generated, s, EvToolStep("step"));
      LeadsOn(generated, s, s, EvToolStep("step"));
      u := Step(generated, s, EvToolStep("step"));
    }
    var e := EvTurnEnd([Origin(u.pendingSay.value), reply], true);
    Answers(generated, u, reply);
    LeadsOn(generated, s, u, e);
    t := Step(generated, u, e);
    TwoReports(u, t, first, Last(t.sent));
  }

  lemma TwoReports(u: State, t: State, first: Report, second: Report)
    requires LinesAreReports(u) && first in u.sent && t.sent == u.sent + [second]
    requires second.key == Key(first.turnId) && second != first
    ensures !OneReportEach(t)
  {
    var k :| 0 <= k < |u.sent| && u.sent[k] == first;
    assert t.sent[k] == first && t.sent[|u.sent|] == second;
  }

  /** The same event, and no other, lets two different reports go out under one idempotency key. */
  lemma RetriesAgreeIff(generated: Generated, events: seq<Event>, e: Event)
    requires NoReopening(generated, events)
    ensures (forall more :: NoneReopens(generated, Run(generated, events + [e]), more)
                            ==> OneReportEach(Run(generated, events + [e] + more)))
            <==> !OpensClosed(Run(generated, events), e)
  {
    var s := Run(generated, events);
    if OpensClosed(s, e) {
      var t, reply := OpenedAgain(generated, events, e);
      RunBase(generated, events);
      var k :| 0 <= k < |s.sent| && s.sent[k].turnId == e.turnId;
      assert t.sent[k] == s.sent[k];
      var u := AnsweredOtherwise(generated, t, s.sent[k], reply);
      LeadsThen(generated, Run(generated, events + [e]), t, u);
      var more := LeadsRun(generated, events + [e], u);
    } else {
      forall more | NoneReopens(generated, Run(generated, events + [e]), more)
        ensures OneReportEach(Run(generated, events + [e] + more))
      {
        StandsUnlessOpened(generated, events, e, more);
      }
    }
  }
}
