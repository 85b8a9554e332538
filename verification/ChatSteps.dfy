/** What the chat doorman asks, injects, captures and transmits, event by event, in plain terms; and which tool
    steps a report carries. */
module ChatSteps {
  import opened Basics
  import opened ChatAnswer
  import opened ChatModel
  import opened ChatTheorems

  // ---------------------------------------------------------------- asking

  /** Nothing is open: no say, or the empty one; no report, no question. */
  predicate Free(s: State) {
    && !s.stopped && s.polling.None? && !s.reporting && s.settled.None?
    && (s.pendingSay.None? || s.pendingSay == Some(""))
  }

  /** A snapshot is asked for exactly by a poll that finds the session on top and idle and nothing open. */
  lemma AsksIff(generated: Generated, s: State, e: Event)
    ensures var t := Step(generated, s, e);
            if e.EvTick? && e.top && e.idle && Free(s) then t == s.(polling := Some(|s.log|))
            else t.polling == s.polling || t.polling.None?
    ensures Step(generated, s, e).polling.None? && s.polling.Some? ==>
              e.EvSnapshotLost? || (e.EvSnapshot? && s.polling.value <= e.n <= |s.log|)
  {
  }

  // ---------------------------------------------------------------- injecting

  /** Among the last 256 of the first n lines. */
  predicate HeldAt(n: nat, k: int) {
    k < n <= k + 256
  }

  predicate UnansweredAt(log: seq<Line>, n: nat, k: nat)
    requires n <= |log|
  {
    && k < n && HeldAt(n, k) && log[k].author.Operator?
    && forall j :: 0 <= j < n && HeldAt(n, j) ==> log[j] != Line(Spirit, log[k].turnId)
  }

  predicate FirstUnansweredAt(log: seq<Line>, n: nat, k: nat)
    requires n <= |log|
  {
    UnansweredAt(log, n, k) && forall j: nat :: j < k ==> !UnansweredAt(log, n, j)
  }

  /** A snapshot that answers the open question, with the session on top and idle. */
  predicate Heeded(s: State, e: Event) {
    e.EvSnapshot? && s.polling.Some? && s.polling.value <= e.n <= |s.log| && !s.stopped && e.top && e.idle
  }

  lemma AnsweredInHeld(log: seq<Line>, n: nat, say: string)
    requires n <= |log|
    ensures Answered(Held(log[..n]), say)
            <==> exists j :: 0 <= j < n && HeldAt(n, j) && log[j] == Line(Spirit, say)
  {
    var lines, from := Held(log[..n]), Start(n);
    if k :| 0 <= k < |lines| && lines[k] == Line(Spirit, say) {
      assert log[from + k] == lines[k] && HeldAt(n, from + k);
    }
    if j :| 0 <= j < n && HeldAt(n, j) && log[j] == Line(Spirit, say) {
      assert lines[j - from] == log[j];
    }
  }

  lemma UnansweredInHeld(log: seq<Line>, n: nat, k: nat)
    requires n <= |log| && k < n && HeldAt(n, k)
    ensures k >= Start(n) && k - Start(n) < |Held(log[..n])| && Held(log[..n])[k - Start(n)] == log[k]
    ensures UnansweredAt(log, n, k) <==> log[k].author.Operator? && !Answered(Held(log[..n]), log[k].turnId)
  {
    AnsweredInHeld(log, n, log[k].turnId);
  }

  lemma NextIsFirst(log: seq<Line>, n: nat)
    requires n <= |log|
    ensures var lines := Held(log[..n]);
            if NextUnanswered(lines) < |lines| then FirstUnansweredAt(log, n, Start(n) + NextUnanswered(lines))
            else forall k: nat :: !UnansweredAt(log, n, k)
  {
    var lines, i := Held(log[..n]), NextUnanswered(Held(log[..n]));
    forall k: nat | k < n && HeldAt(n, k) ensures UnansweredAt(log, n, k) ==> k >= Start(n) + i {
      UnansweredInHeld(log, n, k);
    }
    if i < |lines| { UnansweredInHeld(log, n, Start(n) + i); }
  }

  /** An injection happens exactly when a snapshot is heeded that shows an operator line without its spirit line
      among the 256 held: the first such is injected, and opens its say with no tool step yet. */
  lemma InjectsIff(generated: Generated, s: State, e: Event)
    ensures var t := Step(generated, s, e);
            if Heeded(s, e) && exists k: nat :: FirstUnansweredAt(s.log, e.n, k)
            then exists k: nat :: && FirstUnansweredAt(s.log, e.n, k) && t.pendingSay == Some(s.log[k].turnId)
                                  && t.steps == Some([]) && t.trace == s.trace + [Injected(s.log[k].turnId, k)]
                                  && t.settled == s.settled && t.sent == s.sent
            else t.trace == s.trace || (t.trace != [] && !Last(t.trace).Injected?)
  {
    match e
    case EvSnapshot(n, top, idle) =>
      if s.polling.Some? && s.polling.value <= n <= |s.log| {
        NextIsFirst(s.log, n);
        SnapshotInjects(s, n, top, idle);
      }
    case EvTurnEnd(messages, top) => TurnEndInjectsNothing(s, generated, messages, top);
    case _ =>
  }

  lemma SnapshotInjects(s: State, n: nat, top: bool, idle: bool)
    requires s.polling.Some? && s.polling.value <= n <= |s.log|
    ensures var t, lines := SnapshotBack(s, n, top, idle), Held(s.log[..n]);
            var k := Start(n) + NextUnanswered(lines);
            if !s.stopped && top && idle && NextUnanswered(lines) < |lines|
            then k < |s.log| && t == Inject(s.(polling := None), k) else t == s.(polling := None)
  {
  }

  lemma TurnEndInjectsNothing(s: State, generated: Generated, messages: seq<Message>, top: bool)
    ensures var t := TurnEnd(s, generated, messages, top);
            t.trace == s.trace || (t.trace != [] && !Last(t.trace).Injected?)
  {
    TurnEndCases(s, generated, messages, top);
  }

  // ---------------------------------------------------------------- capturing and transmitting

  /** The end of a turn on top at which the open say's answer can be captured. */
  predicate Captures(generated: Generated, s: State, e: Event) {
    && e.EvTurnEnd? && e.top && !s.stopped && s.settled.None? && s.pendingSay.Some? && s.pendingSay.value != ""
    && Capture(generated, e.messages, s.pendingSay.value).Some?
  }

  /** The report is captured exactly then, for the open say, under its key, with the steps so far; until it is
      acknowledged it stays as it is. */
  lemma CapturesIff(generated: Generated, s: State, e: Event)
    ensures var t := Step(generated, s, e);
            if Captures(generated, s, e) then
              var say := s.pendingSay.value;
              t.settled == Some(Report("chat-turn:" + say, say, Capture(generated, e.messages, say).value,
                                       if s.steps.Some? then s.steps.value else []))
            else t.settled == s.settled || (e.EvAcked? && t.settled.None? && t.pendingSay.None? && t.steps.None?)
  {
  }

  /** A report goes out exactly when none is on its way: at its capture, or at a poll on top. */
  lemma TransmitsIff(generated: Generated, s: State, e: Event)
    ensures var t := Step(generated, s, e);
            if !s.reporting && (Captures(generated, s, e)
                                || (e.EvTick? && e.top && !s.stopped && s.polling.None? && s.settled.Some?))
            then t.settled.Some? && t.reporting && t.sent == s.sent + [t.settled.value]
                 && t.trace == s.trace + [Transmitted(t.settled.value)]
            else t.sent == s.sent
  {
  }

  /** An acknowledgement closes the say exactly when its report is on its way and the Host has it; a failure only
      ends the transmission. */
  lemma ClosesIff(generated: Generated, s: State, e: Event)
    ensures var t := Step(generated, s, e);
            if e.EvAcked? && s.reporting && s.settled.Some? && s.settled.value.key in s.processed
            then t == s.(reporting := false, pendingSay := None, steps := None, settled := None,
                         trace := s.trace + [Acknowledged(s.settled.value.turnId)])
            else t.trace == s.trace || (t.trace != [] && !Last(t.trace).Acknowledged?)
    ensures Step(generated, s, EvFailed) == s.(reporting := false)
    ensures Step(generated, s, e).stopped <==> s.stopped || e.EvStop?
  {
  }

  // ---------------------------------------------------------------- tool steps

  /** The tool steps since the last injection, up to the capture. */
  function StepsSince(generated: Generated, events: seq<Event>): seq<string> {
    if events == [] then []
    else
      var s, t, e := Run(generated, Front(events)), Run(generated, events), Last(events);
      if |t.trace| > |s.trace| && Last(t.trace).Injected? then []
      else if e.EvToolStep? && s.pendingSay.Some? && s.settled.None? && !s.stopped
      then StepsSince(generated, Front(events)) + [e.step]
      else StepsSince(generated, Front(events))
  }

  /** The steps kept and the steps reported are those since the say's injection. */
  predicate StepsAre(s: State, steps: seq<string>) {
    && (s.steps.Some? <==> s.pendingSay.Some?)
    && (s.pendingSay.Some? ==> s.steps == Some(steps))
    && (s.settled.Some? ==> s.settled.value.steps == steps)
  }

  lemma TickSteps(s: State, top: bool, idle: bool, steps: seq<string>)
    requires StepsAre(s, steps)
    ensures StepsAre(Tick(s, top, idle), steps)
    ensures Tick(s, top, idle).trace == s.trace || !Last(Tick(s, top, idle).trace).Injected?
  {
  }

  lemma TurnEndSteps(s: State, generated: Generated, messages: seq<Message>, top: bool, steps: seq<string>)
    requires StepsAre(s, steps)
    ensures StepsAre(TurnEnd(s, generated, messages, top), steps)
  {
    TurnEndCases(s, generated, messages, top);
  }

  lemma SnapshotSteps(s: State, n: nat, top: bool, idle: bool, steps: seq<string>)
    requires Phases(s) && StepsAre(s, steps)
    ensures var t := SnapshotBack(s, n, top, idle);
            if |t.trace| > |s.trace| then Last(t.trace).Injected? && StepsAre(t, []) else StepsAre(t, steps)
  {
    if s.polling.Some? && s.polling.value <= n <= |s.log| { SnapshotInjects(s, n, top, idle); }
  }

  /** Over every history: while a say is open the tool steps kept are those noted since its injection and before
      its capture, in order; and a captured report carries exactly these. */
  lemma {:induction false} ReportsCarryTheSteps(generated: Generated, events: seq<Event>)
    ensures StepsAre(Run(generated, events), StepsSince(generated, events))
  {
    if events != [] {
      var s, e := Run(generated, Front(events)), Last(events);
      var steps := StepsSince(generated, Front(events));
      ReportsCarryTheSteps(generated, Front(events));
      RunBase(generated, Front(events));
      match e
      case EvTick(top, idle) => TickSteps(s, top, idle, steps);
      case EvSnapshot(n, top, idle) => SnapshotSteps(s, n, top, idle, steps);
      case EvTurnEnd(messages, top) =>
        TurnEndSteps(s, generated, messages, top, steps);
        TurnEndInjectsNothing(s, generated, messages, top);
      case EvAcked => Acks(s, steps);
      case _ =>
    }
  }

  lemma Acks(s: State, steps: seq<string>)
    requires StepsAre(s, steps) && Phases(s)
    ensures StepsAre(ReportAcked(s), steps)
    ensures ReportAcked(s).trace == s.trace || !Last(ReportAcked(s).trace).Injected?
  {
  }

  // ---------------------------------------------------------------- the Host

  predicate OnlySpace(say: string) {
    forall i :: 0 <= i < |say| ==> say[i] == ' ' || say[i] == '\t' || say[i] == '\n' || say[i] == '\r'
  }

  /** The line stands among the last 256. */
  predicate HoldsLine(log: seq<Line>, line: Line) {
    exists j :: 0 <= j < |log| && HeldAt(|log|, j) && log[j] == line
  }

  /** The Host takes an operator line exactly when its id is not blank and none of the 256 lines held says it; a
      report brings its line exactly when none of them answers it; both as they come, at the end. */
  lemma HostTakesIff(generated: Generated, s: State, e: Event)
    ensures var t, n := Step(generated, s, e), |s.sent|;
            match e
            case EvOperator(say) =>
              t.log == if OnlySpace(say) || HoldsLine(s.log, Line(Operator, say)) then s.log
                       else s.log + [Line(Operator, say)]
            case EvHost(k) =>
              if k >= n then t == s
              else
                && t.processed == s.processed + {s.sent[k].key}
                && var line := Line(Spirit, s.sent[k].turnId);
                   t.log == if HoldsLine(s.log, line) then s.log else s.log + [line]
            case _ => t.log == s.log && t.processed == s.processed
  {
    assert s.log[..|s.log|] == s.log;
    match e
    case EvOperator(say) => SaidInHeld(s.log, say);
    case EvHost(k) => if k < |s.sent| { AnsweredInHeld(s.log, |s.log|, s.sent[k].turnId); }
    case _ =>
  }

  lemma SaidInHeld(log: seq<Line>, say: string)
    ensures Says(Held(log), say) <==> exists j :: 0 <= j < |log| && HeldAt(|log|, j) && log[j] == Line(Operator, say)
  {
    var lines, from := Held(log), Start(|log|);
    if k :| 0 <= k < |lines| && lines[k] == Line(Operator, say) {
      assert log[from + k] == lines[k] && HeldAt(|log|, from + k);
    }
    if j :| 0 <= j < |log| && HeldAt(|log|, j) && log[j] == Line(Operator, say) {
      assert lines[j - from] == log[j];
    }
  }
}
