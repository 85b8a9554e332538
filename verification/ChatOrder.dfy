/** In which order says are answered, and what their retries carry. */
module ChatOrder {
  import opened Basics
  import opened ChatAnswer
  import opened ChatModel
  import opened ChatTheorems
  import opened ChatSafety

  // ---------------------------------------------------------------- retries

  /** A transmission whose acknowledgement has not come yet. */
  ghost predicate Standing(t: seq<Entry>, j: nat, r: Report) {
    j < |t| && t[j] == Transmitted(r) && forall k :: j < k < |t| ==> !t[k].Acknowledged?
  }

  ghost predicate StandingIsSettled(s: State) {
    forall j: nat, r :: Standing(s.trace, j, r) ==> s.settled == Some(r)
  }

  /** Transmissions with no acknowledgement between them carry the same report. */
  ghost predicate Alike(t: seq<Entry>) {
    forall j: nat, k: nat :: j < k < |t| && t[j].Transmitted? && t[k].Transmitted? && Unacked(t, j, k) ==>
      t[j].report == t[k].report
  }

  ghost predicate Unacked(t: seq<Entry>, j: nat, k: nat)
    requires k <= |t|
  {
    forall m :: j < m < k ==> !t[m].Acknowledged?
  }

  lemma StandingBefore(t: seq<Entry>, e: Entry, j: nat, r: Report)
    requires Standing(t + [e], j, r) && j < |t|
    ensures Standing(t, j, r) && !e.Acknowledged?
  {
    assert (t + [e])[|t|] == e && (t + [e])[j] == t[j];
    assert forall k :: j < k < |t| ==> (t + [e])[k] == t[k];
  }

  lemma AlikeStep(t: seq<Entry>, e: Entry)
    requires Alike(t) && (e.Transmitted? ==> forall j: nat, r :: Standing(t, j, r) ==> r == e.report)
    ensures Alike(t + [e])
  {
    var u := t + [e];
    forall j: nat, k: nat | j < k < |u| && u[j].Transmitted? && u[k].Transmitted? && Unacked(u, j, k)
      ensures u[j].report == u[k].report
    {
      if k == |t| {
        assert forall m :: j < m < |t| ==> u[m] == t[m];
        assert Standing(t, j, t[j].report);
      } else {
        UnackedBefore(t, e, j, k);
      }
    }
  }

  lemma UnackedBefore(t: seq<Entry>, e: Entry, j: nat, k: nat)
    requires j < k < |t| && Unacked(t + [e], j, k)
    ensures Unacked(t, j, k) && (t + [e])[j] == t[j] && (t + [e])[k] == t[k]
  {
    assert forall m :: j < m < k ==> (t + [e])[m] == t[m];
  }

  ghost predicate Repeats(s: State) {
    StandingIsSettled(s) && Alike(s.trace)
  }

  lemma NoteRepeats(s: State, t: State, e: Entry)
    requires Repeats(s) && t.trace == s.trace + [e]
    requires e.Acknowledged? || t.settled == s.settled
    requires e.Transmitted? ==> s.settled == Some(e.report)
    ensures Repeats(t)
  {
    AlikeStep(s.trace, e);
    forall j: nat, r | Standing(t.trace, j, r) ensures t.settled == Some(r) {
      if j < |s.trace| { StandingBefore(s.trace, e, j, r); }
    }
  }

  lemma DeliverRepeats(s: State, top: bool)
    requires Repeats(s)
    ensures Repeats(Deliver(s, top))
  {
    if s.settled.Some? && Deliver(s, top) != s { NoteRepeats(s, Deliver(s, top), Transmitted(s.settled.value)); }
  }

  lemma TurnEndRepeats(s: State, generated: Generated, messages: seq<Message>, top: bool)
    requires Repeats(s)
    ensures Repeats(TurnEnd(s, generated, messages, top))
  {
    TurnEndCases(s, generated, messages, top);
    if s.pendingSay.Some? && s.settled.None? {
      var answer := Capture(generated, messages, s.pendingSay.value);
      if answer.Some? { DeliverRepeats(s.(settled := Some(ReportFor(s, s.pendingSay.value, answer.value))), top); }
    }
  }

  lemma SnapshotRepeats(s: State, n: nat, top: bool, idle: bool)
    requires Repeats(s)
    ensures Repeats(SnapshotBack(s, n, top, idle))
  {
    if s.polling.Some? && s.polling.value <= n <= |s.log| {
      var t, at := SnapshotBack(s, n, top, idle), Start(n) + NextUnanswered(Held(s.log[..n]));
      SnapshotCases(s, n, top, idle);
      if t != s.(polling := None) { NoteRepeats(s, t, Injected(s.log[at].turnId, at)); }
    }
  }

  lemma StepRepeats(generated: Generated, s: State, e: Event)
    requires Repeats(s)
    ensures Repeats(Step(generated, s, e))
  {
    match e
    case EvTick(top, _) => DeliverRepeats(s, top);
    case EvSnapshot(n, top, idle) => SnapshotRepeats(s, n, top, idle);
    case EvTurnEnd(messages, top) => TurnEndRepeats(s, generated, messages, top);
    case EvAcked =>
      if ReportAcked(s) != s { NoteRepeats(s, ReportAcked(s), Acknowledged(s.settled.value.turnId)); }
    case _ =>
  }

  lemma {:induction false} RunRepeats(generated: Generated, events: seq<Event>)
    ensures Repeats(Run(generated, events))
  {
    if events != [] {
      RunRepeats(generated, Front(events));
      StepRepeats(generated, Run(generated, Front(events)), Last(events));
    }
  }

  /** Over every history: until the acknowledgement comes, each transmission repeats the one before. */
  lemma RetriesAreAlike(generated: Generated, events: seq<Event>, j: nat, k: nat)
    requires var t := Run(generated, events).trace;
             j < k < |t| && t[j].Transmitted? && t[k].Transmitted? && Unacked(t, j, k)
    ensures Run(generated, events).trace[j] == Run(generated, events).trace[k]
  {
    RunRepeats(generated, events);
  }

  // ---------------------------------------------------------------- first answers

  /** A say injected and not answered is the one injected last, and still open. */
  ghost predicate OnlyLastIsOpen(s: State) {
    forall k :: 0 <= k < |s.trace| && s.trace[k].Injected? && !Answered(s.log, s.trace[k].say) ==>
      s.pendingSay == Some(s.trace[k].say) && forall m :: k < m < |s.trace| ==> !s.trace[m].Injected?
  }

  predicate FirstAnswer(log: seq<Line>, a: nat) {
    a < |log| && log[a].author.Spirit? && forall c :: 0 <= c < a ==> log[c] != log[a]
  }

  /** Some injection of x comes before every injection of y. */
  ghost predicate InjectedBefore(t: seq<Entry>, x: string, y: string) {
    exists j :: FirstOf(t, j, x, y)
  }

  ghost predicate FirstOf(t: seq<Entry>, j: int, x: string, y: string) {
    && 0 <= j < |t| && t[j].Injected? && t[j].say == x
    && forall k :: 0 <= k < |t| && t[k].Injected? && t[k].say == y ==> j < k
  }

  /** The first answers to two says stand in the order in which these were first injected. */
  ghost predicate FirstsInOrder(s: State) {
    forall a: nat, b: nat :: a < b && FirstAnswer(s.log, a) && FirstAnswer(s.log, b) ==>
      InjectedBefore(s.trace, s.log[a].turnId, s.log[b].turnId)
  }

  ghost predicate Ordered(s: State) {
    OnlyLastIsOpen(s) && FirstsInOrder(s)
  }

  lemma BeforeLonger(t: seq<Entry>, e: Entry, x: string, y: string)
    requires InjectedBefore(t, x, y)
    ensures InjectedBefore(t + [e], x, y)
  {
    var j :| FirstOf(t, j, x, y);
    assert FirstOf(t + [e], j, x, y);
  }

  lemma TraceOrdered(s: State, t: State, e: Entry)
    requires FirstsInOrder(s) && t.log == s.log && t.trace == s.trace + [e]
    ensures FirstsInOrder(t)
  {
    forall a: nat, b: nat | a < b && FirstAnswer(s.log, a) && FirstAnswer(s.log, b)
      ensures InjectedBefore(t.trace, s.log[a].turnId, s.log[b].turnId)
    {
      BeforeLonger(s.trace, e, s.log[a].turnId, s.log[b].turnId);
    }
  }

  lemma DeliverOrdered(s: State, top: bool)
    requires Ordered(s)
    ensures Ordered(Deliver(s, top))
  {
    if s.settled.Some? && Deliver(s, top) != s { TraceOrdered(s, Deliver(s, top), Transmitted(s.settled.value)); }
  }

  lemma LastStaysOpen(s: State, t: State, say: string, at: nat)
    requires OnlyLastIsOpen(s) && s.pendingSay.None? && t.log == s.log
    requires t.trace == s.trace + [Injected(say, at)] && t.pendingSay == Some(say)
    ensures OnlyLastIsOpen(t)
  {
    assert forall k :: 0 <= k < |s.trace| ==> t.trace[k] == s.trace[k];
  }

  lemma InjectOrdered(s: State, at: nat)
    requires Ordered(s) && s.pendingSay.None? && at < |s.log|
    ensures Ordered(Inject(s, at))
  {
    LastStaysOpen(s, Inject(s, at), s.log[at].turnId, at);
    TraceOrdered(s, Inject(s, at), Injected(s.log[at].turnId, at));
  }

  /** What a snapshot makes of a state: nothing, the question withdrawn, or a say injected. */
  predicate Polled(s: State, t: State, at: nat) {
    || t == s || t == s.(polling := None)
    || (s.polling.Some? && at < |s.log| && t == Inject(s.(polling := None), at))
  }

  lemma SnapshotPolls(s: State, n: nat, top: bool, idle: bool) returns (at: nat)
    ensures Polled(s, SnapshotBack(s, n, top, idle), at)
  {
    at := 0;
    if s.polling.Some? && s.polling.value <= n <= |s.log| {
      at := Start(n) + NextUnanswered(Held(s.log[..n]));
      SnapshotCases(s, n, top, idle);
    }
  }

  lemma PolledOrdered(s: State, t: State, at: nat)
    requires Phases(s) && Ordered(s) && Polled(s, t, at)
    ensures Ordered(t)
  {
    var u := s.(polling := None);
    assert Ordered(u);
    if t != s && t != u { InjectOrdered(u, at); }
  }

  lemma SnapshotOrdered(s: State, n: nat, top: bool, idle: bool)
    requires Phases(s) && Ordered(s)
    ensures Ordered(SnapshotBack(s, n, top, idle))
  {
    var at := SnapshotPolls(s, n, top, idle);
    PolledOrdered(s, SnapshotBack(s, n, top, idle), at);
  }

  lemma TurnEndOrdered(s: State, generated: Generated, messages: seq<Message>, top: bool)
    requires Ordered(s)
    ensures Ordered(TurnEnd(s, generated, messages, top))
  {
    TurnEndCases(s, generated, messages, top);
    if s.pendingSay.Some? {
      var answer := Capture(generated, messages, s.pendingSay.value);
      if answer.Some? { DeliverOrdered(s.(settled := Some(ReportFor(s, s.pendingSay.value, answer.value))), top); }
    }
  }

  lemma AckedOrdered(s: State)
    requires Base(s) && Ordered(s)
    ensures Ordered(ReportAcked(s))
  {
    if ReportAcked(s) != s {
      assert Answered(s.log, s.settled.value.turnId);
      TraceOrdered(s, ReportAcked(s), Acknowledged(s.settled.value.turnId));
    }
  }

  lemma FirstAnswerStays(log: seq<Line>, line: Line, a: nat)
    requires a < |log|
    ensures FirstAnswer(log + [line], a) <==> FirstAnswer(log, a)
  {
    assert forall c :: 0 <= c <= a ==> (log + [line])[c] == log[c];
  }

  lemma OpenLonger(s: State, t: State, line: Line)
    requires OnlyLastIsOpen(s) && t.log == s.log + [line] && t.trace == s.trace && t.pendingSay == s.pendingSay
    ensures OnlyLastIsOpen(t)
  {
    forall say | Answered(s.log, say) ensures Answered(t.log, say) { AnsweredGrows(s.log, [line], say); }
  }

  lemma OperatorOrdered(s: State, turnId: string)
    requires Ordered(s)
    ensures Ordered(OperatorSays(s, turnId))
  {
    var t, line := OperatorSays(s, turnId), Line(Operator, turnId);
    if t != s {
      OpenLonger(s, t, line);
      forall a: nat | a < |s.log| { FirstAnswerStays(s.log, line, a); }
    }
  }

  /** What is answered for the first time is the say injected last. */
  lemma NewAnswerIsLast(s: State, x: string, y: string)
    requires OnlyLastIsOpen(s) && WasInjected(s.trace, x) && WasInjected(s.trace, y) && !Answered(s.log, y) && x != y
    ensures InjectedBefore(s.trace, x, y)
  {
    var j :| 0 <= j < |s.trace| && s.trace[j].Injected? && s.trace[j].say == x;
    var k :| 0 <= k < |s.trace| && s.trace[k].Injected? && s.trace[k].say == y;
    assert FirstOf(s.trace, j, x, y);
  }

  lemma HostOrdered(s: State, k: nat)
    requires Base(s) && Ordered(s)
    ensures Ordered(HostProcesses(s, k))
  {
    var t := HostProcesses(s, k);
    if t.log != s.log {
      var y := s.sent[k].turnId;
      var line := Line(Spirit, y);
      OpenLonger(s, t, line);
      forall a: nat, b: nat | a < b && FirstAnswer(t.log, a) && FirstAnswer(t.log, b)
        ensures InjectedBefore(t.trace, t.log[a].turnId, t.log[b].turnId)
      {
        FirstAnswerStays(s.log, line, a);
        if b < |s.log| { FirstAnswerStays(s.log, line, b); } else { LastAnswerOrdered(s, t, y, a); }
      }
    }
  }

  lemma LastAnswerOrdered(s: State, t: State, y: string, a: nat)
    requires Base(s) && Ordered(s) && t.trace == s.trace && t.log == s.log + [Line(Spirit, y)]
    requires WasInjected(s.trace, y) && FirstAnswer(t.log, |s.log|) && a < |s.log| && FirstAnswer(s.log, a)
    ensures InjectedBefore(t.trace, t.log[a].turnId, y)
  {
    assert forall c :: 0 <= c < |s.log| ==> t.log[c] == s.log[c];
    assert s.log[a].turnId != y by { LineSays(s.log, a); assert t.log[a] != Line(Spirit, y); }
    NewAnswerIsLast(s, s.log[a].turnId, y);
  }

  lemma StepOrdered(generated: Generated, s: State, e: Event)
    requires Base(s) && Ordered(s)
    ensures Ordered(Step(generated, s, e))
  {
    match e
    case EvTick(top, _) => DeliverOrdered(s, top);
    case EvSnapshot(n, top, idle) => SnapshotOrdered(s, n, top, idle);
    case EvTurnEnd(messages, top) => TurnEndOrdered(s, generated, messages, top);
    case EvAcked => AckedOrdered(s);
    case EvOperator(turnId) => OperatorOrdered(s, turnId);
    case EvHost(k) => HostOrdered(s, k);
    case _ =>
  }

  /** Over every history, late re-says and revived reports included: the first answers to two says stand in
      the order in which these were first injected. */
  lemma {:induction false} FirstAnswersInOrder(generated: Generated, events: seq<Event>)
    ensures Ordered(Run(generated, events))
  {
    if events != [] {
      FirstAnswersInOrder(generated, Front(events));
      RunBase(generated, Front(events));
      StepOrdered(generated, Run(generated, Front(events)), Last(events));
    }
  }

  // ---------------------------------------------------------------- all answers

  /** Spirit lines stand in the order in which the says they answer were first injected. */
  ghost predicate SpiritsFollow(s: State) {
    forall a, b :: 0 <= a < b < |s.log| && s.log[a].author.Spirit? && s.log[b].author.Spirit? ==>
      InjectedBefore(s.trace, s.log[a].turnId, s.log[b].turnId)
  }

  lemma NotBeforeItself(t: seq<Entry>, x: string)
    ensures !InjectedBefore(t, x, x)
  {
    forall j ensures !FirstOf(t, j, x, x) {
    }
  }

  lemma OnceIsFirst(log: seq<Line>, a: nat)
    requires AnsweredOnce(log) && a < |log| && log[a].author.Spirit?
    ensures FirstAnswer(log, a)
  {
  }

  /** Over every history, says said again late included: all answers stand in the order in which the says
      were first injected, if and only if the Host is given no report again after its line was dropped. */
  lemma AnswersFollowIff(generated: Generated, events: seq<Event>)
    ensures SpiritsFollow(Run(generated, events)) <==> !RevivesSome(generated, events)
  {
    var s := Run(generated, events);
    FirstAnswersInOrder(generated, events);
    OneSpiritLineIff(generated, events);
    if AnsweredOnce(s.log) {
      forall a: nat | a < |s.log| && s.log[a].author.Spirit? { OnceIsFirst(s.log, a); }
    }
    forall x { NotBeforeItself(s.trace, x); }
  }

  ghost predicate Before(t: seq<Entry>, x: string, y: string) {
    forall j, k :: 0 <= j < |t| && 0 <= k < |t| && t[j].Injected? && t[k].Injected? && t[j].say == x && t[k].say == y
      ==> j < k
  }

  /** Spirit lines stand in the order in which the says they answer were injected. */
  ghost predicate SpiritsInOrder(s: State) {
    forall a, b :: 0 <= a < b < |s.log| && s.log[a].author.Spirit? && s.log[b].author.Spirit? ==>
      Before(s.trace, s.log[a].turnId, s.log[b].turnId)
  }

  lemma OnlyIsFirst(t: seq<Entry>, log: seq<Line>, x: string, y: string)
    requires InLogOrder(t, log) && InjectedBefore(t, x, y)
    ensures Before(t, x, y)
  {
    var j :| FirstOf(t, j, x, y);
  }

  /** No injection of a say comes after one of a say answered later, when none is said again after its report
      was processed and its line dropped, and none is revived. */
  lemma AnswersInOrder(generated: Generated, events: seq<Event>)
    requires NoReopening(generated, events) && !RevivesSome(generated, events)
    ensures SpiritsInOrder(Run(generated, events))
  {
    var s := Run(generated, events);
    RunKeeps(generated, events);
    AnswersFollowIff(generated, events);
    forall a, b | 0 <= a < b < |s.log| && s.log[a].author.Spirit? && s.log[b].author.Spirit?
      ensures Before(s.trace, s.log[a].turnId, s.log[b].turnId)
    {
      OnlyIsFirst(s.trace, s.log, s.log[a].turnId, s.log[b].turnId);
    }
  }
}
