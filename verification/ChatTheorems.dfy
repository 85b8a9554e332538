/** Chat safety over one session, whatever is lost, late or repeated between doorman and Host. */
module ChatTheorems {
  import opened Basics
  import opened ChatAnswer
  import opened ChatModel

  // ---------------------------------------------------------------- the trace

  /** The say between its injection and the acknowledgement of its report. */
  function OpenSay(t: seq<Entry>): Option<string> {
    if t == [] then None
    else
      match Last(t)
      case Injected(say, _) => Some(say)
      case Acknowledged(_) => None
      case Transmitted(_) => OpenSay(Front(t))
  }

  /** One say at a time: an injection only while none is open; reports and their acknowledgement only
      for the open one. */
  predicate OneAtATime(t: seq<Entry>) {
    t == [] ||
    (OneAtATime(Front(t)) &&
     match Last(t)
     case Injected(_, _) => OpenSay(Front(t)).None?
     case Transmitted(r) => OpenSay(Front(t)) == Some(r.turnId)
     case Acknowledged(say) => OpenSay(Front(t)) == Some(say))
  }

  // ---------------------------------------------------------------- the invariant

  ghost predicate WasInjected(t: seq<Entry>, say: string) {
    exists k :: 0 <= k < |t| && t[k].Injected? && t[k].say == say
  }

  /** Injections follow the log, each at the operator line that says it. */
  ghost predicate InLogOrder(t: seq<Entry>, log: seq<Line>) {
    && (forall k :: 0 <= k < |t| && t[k].Injected? ==> t[k].at < |log| && log[t[k].at] == Line(Operator, t[k].say))
    && (forall j, k :: 0 <= j < k < |t| && t[j].Injected? && t[k].Injected? ==>
          t[j].at < t[k].at && t[j].say != t[k].say)
  }

  ghost predicate Named(log: seq<Line>) {
    forall k :: 0 <= k < |log| && log[k].author.Operator? ==> !Blank(log[k].turnId)
  }

  /** A say is answered only after every line that says it. */
  ghost predicate SaidBefore(log: seq<Line>) {
    forall j, k :: 0 <= k <= j < |log| && log[j].author.Operator? && log[k].author.Spirit? ==>
      log[j].turnId != log[k].turnId
  }

  /** Spirit lines answer injected says whose report was processed, and every report processed has one. */
  ghost predicate LinesAreReports(s: State) {
    && (forall k :: 0 <= k < |s.log| && s.log[k].author.Spirit? ==>
          Key(s.log[k].turnId) in s.processed && WasInjected(s.trace, s.log[k].turnId))
    && (forall k :: 0 <= k < |s.sent| ==> s.sent[k].key == Key(s.sent[k].turnId))
    && (forall say :: Key(say) in s.processed ==> Answered(s.log, say))
  }

  ghost predicate WasSent(sent: seq<Report>, say: string) {
    exists k :: 0 <= k < |sent| && sent[k].turnId == say
  }

  /** What was transmitted was injected, and what was processed was transmitted. */
  ghost predicate Sourced(s: State) {
    && (forall k :: 0 <= k < |s.sent| ==> WasInjected(s.trace, s.sent[k].turnId))
    && (forall say :: Key(say) in s.processed ==> WasSent(s.sent, say))
  }

  /** Of the operator lines before `at`, every one among the last 256 of the first n is answered in these. */
  ghost predicate Passed(log: seq<Line>, at: nat, n: nat)
    requires n <= |log|
  {
    forall j :: Start(n) <= j < at && j < |log| && log[j].author.Operator? ==> Answered(log[..n], log[j].turnId)
  }

  /** Within the first n lines everything injected is answered, but for the pending say, and so is every
      operator line before it that is still held. */
  ghost predicate Settles(t: seq<Entry>, log: seq<Line>, n: nat, pending: Option<string>)
    requires n <= |log|
  {
    forall k :: 0 <= k < |t| && t[k].Injected? ==>
      (pending != Some(t[k].say) ==> Answered(log[..n], t[k].say)) && Passed(log, t[k].at, n)
  }

  ghost predicate Phases(s: State) {
    && s.pendingSay != Some("")
    && OneAtATime(s.trace) && OpenSay(s.trace) == s.pendingSay
    && (s.settled.Some? ==>
          s.pendingSay == Some(s.settled.value.turnId) && s.settled.value.key == Key(s.settled.value.turnId))
    && (s.reporting ==> s.settled.Some?)
    && (s.polling.Some? ==> s.pendingSay.None? && s.polling.value <= |s.log|)
    && (s.pendingSay.Some? ==> WasInjected(s.trace, s.pendingSay.value))
  }

  /** Every transmission for a say is the same report, and none was made before it was captured. */
  ghost predicate Transmissions(s: State) {
    && (forall j, k :: 0 <= j < k < |s.sent| && s.sent[j].turnId == s.sent[k].turnId ==> s.sent[j] == s.sent[k])
    && (forall k :: 0 <= k < |s.sent| && s.pendingSay == Some(s.sent[k].turnId) ==> s.settled == Some(s.sent[k]))
  }

  /** What every history keeps. */
  ghost predicate Base(s: State) {
    Phases(s) && LinesAreReports(s) && Sourced(s) && Named(s.log)
  }

  /** What histories keep in which no say is said again, as a new one, after its report was processed. */
  ghost predicate Inv(s: State) {
    && Base(s)
    && Transmissions(s)
    && InLogOrder(s.trace, s.log) && SaidBefore(s.log)
    && Settles(s.trace, s.log, |s.log|, s.pendingSay)
    && (s.polling.Some? ==> Settles(s.trace, s.log, s.polling.value, None))
  }

  // ---------------------------------------------------------------- preservation

  lemma AnsweredGrows(lines: seq<Line>, more: seq<Line>, say: string)
    requires Answered(lines, say)
    ensures Answered(lines + more, say)
  {
    var k :| 0 <= k < |lines| && lines[k] == Line(Spirit, say);
    assert (lines + more)[k] == Line(Spirit, say);
  }

  lemma TraceStep(t: seq<Entry>, e: Entry)
    requires OneAtATime(t)
    ensures OpenSay(t + [e]) == match e { case Injected(say, _) => Some(say)
                                          case Acknowledged(_) => None
                                          case Transmitted(_) => OpenSay(t) }
    ensures OneAtATime(t + [e]) <==> match e { case Injected(_, _) => OpenSay(t).None?
                                               case Transmitted(r) => OpenSay(t) == Some(r.turnId)
                                               case Acknowledged(say) => OpenSay(t) == Some(say) }
  {
    Snoc(t, e);
  }

  lemma InjectedGrows(t: seq<Entry>, e: Entry, say: string)
    ensures WasInjected(t + [e], say) <==> WasInjected(t, say) || (e.Injected? && e.say == say)
  {
    if WasInjected(t, say) {
      var k :| 0 <= k < |t| && t[k].Injected? && t[k].say == say;
      assert (t + [e])[k] == t[k];
    }
    assert (t + [e])[|t|] == e;
    assert forall k :: 0 <= k < |t| ==> (t + [e])[k] == t[k];
  }

  // ---------------------------------------------------------------- what every history keeps

  lemma HeldIsAnswered(log: seq<Line>, say: string)
    requires Answered(Held(log), say)
    ensures Answered(log, say)
  {
    var k :| 0 <= k < |Held(log)| && Held(log)[k] == Line(Spirit, say);
    assert log[Start(|log|) + k] == Line(Spirit, say);
  }

  lemma LineSays(log: seq<Line>, k: nat)
    requires k < |log|
    ensures log[k].author.Operator? ==> Says(log, log[k].turnId)
    ensures log[k].author.Spirit? ==> Answered(log, log[k].turnId)
  {
    assert log[k] == Line(log[k].author, log[k].turnId);
  }

  lemma KeyIsInjective(a: string, b: string)
    requires Key(a) == Key(b)
    ensures a == b
  {
    assert Key(a)[10..] == a && Key(b)[10..] == b;
  }

  lemma SentGrows(sent: seq<Report>, r: Report, say: string)
    ensures WasSent(sent, say) ==> WasSent(sent + [r], say)
    ensures WasSent(sent + [r], r.turnId)
  {
    if WasSent(sent, say) {
      var k :| 0 <= k < |sent| && sent[k].turnId == say;
      assert (sent + [r])[k].turnId == say;
    }
    assert (sent + [r])[|sent|] == r;
  }

  lemma DeliverBase(s: State, top: bool)
    requires Base(s)
    ensures Base(Deliver(s, top))
  {
    if s.settled.Some? {
      var e := Transmitted(s.settled.value);
      TraceStep(s.trace, e);
      forall say { InjectedGrows(s.trace, e, say); }
      forall say { SentGrows(s.sent, s.settled.value, say); }
    }
  }

  lemma TickBase(s: State, top: bool, idle: bool)
    requires Base(s)
    ensures Base(Tick(s, top, idle))
  {
    DeliverBase(s, top);
  }

  /** The place in the log of the line a snapshot of the first n lines chooses. */
  ghost predicate Chosen(s: State, n: nat, at: nat) {
    && s.polling.Some? && s.polling.value <= n <= |s.log|
    && NextUnanswered(Held(s.log[..n])) < |Held(s.log[..n])|
    && at == Start(n) + NextUnanswered(Held(s.log[..n]))
  }

  lemma ChosenIsOperator(s: State, n: nat, at: nat)
    requires Chosen(s, n, at)
    ensures at < n && s.log[at].author.Operator?
  {
    var lines := Held(s.log[..n]);
    assert lines[at - Start(n)] == s.log[at];
  }

  lemma SnapshotCases(s: State, n: nat, top: bool, idle: bool)
    requires s.polling.Some? && s.polling.value <= n <= |s.log|
    ensures var t, at := SnapshotBack(s, n, top, idle), Start(n) + NextUnanswered(Held(s.log[..n]));
            t == s.(polling := None) || (Chosen(s, n, at) && at < |s.log| && t == Inject(s.(polling := None), at))
  {
    if NextUnanswered(Held(s.log[..n])) < |Held(s.log[..n])| {
      ChosenIsOperator(s, n, Start(n) + NextUnanswered(Held(s.log[..n])));
    }
  }

  lemma InjectBase(s: State, at: nat)
    requires Base(s) && s.polling.Some? && at < |s.log| && s.log[at].author.Operator?
    ensures Base(Inject(s.(polling := None), at))
  {
    var e := Injected(s.log[at].turnId, at);
    TraceStep(s.trace, e);
    forall say { InjectedGrows(s.trace, e, say); }
  }

  lemma SnapshotBase(s: State, n: nat, top: bool, idle: bool)
    requires Base(s)
    ensures Base(SnapshotBack(s, n, top, idle))
  {
    if s.polling.Some? && s.polling.value <= n <= |s.log| {
      var at := Start(n) + NextUnanswered(Held(s.log[..n]));
      if Chosen(s, n, at) {
        ChosenIsOperator(s, n, at);
        InjectBase(s, at);
      }
      SnapshotCases(s, n, top, idle);
    }
  }

  /** What a captured answer is reported as. */
  function ReportFor(s: State, say: string, answer: Answer): Report {
    Report(Key(say), say, answer, if s.steps.Some? then s.steps.value else [])
  }

  lemma TurnEndCases(s: State, generated: Generated, messages: seq<Message>, top: bool)
    ensures var t := TurnEnd(s, generated, messages, top);
            || t == s
            || (s.pendingSay.Some? && s.settled.None? && Capture(generated, messages, s.pendingSay.value).Some?
                && t == Deliver(s.(settled := Some(ReportFor(s, s.pendingSay.value,
                                                             Capture(generated, messages, s.pendingSay.value).value))),
                                top))
  {
  }

  lemma TurnEndBase(s: State, generated: Generated, messages: seq<Message>, top: bool)
    requires Base(s)
    ensures Base(TurnEnd(s, generated, messages, top))
  {
    TurnEndCases(s, generated, messages, top);
    if s.pendingSay.Some? {
      var answer := Capture(generated, messages, s.pendingSay.value);
      if answer.Some? { DeliverBase(s.(settled := Some(ReportFor(s, s.pendingSay.value, answer.value))), top); }
    }
  }

  lemma AckedBase(s: State)
    requires Base(s)
    ensures Base(ReportAcked(s))
  {
    if s.reporting && s.settled.value.key in s.processed {
      var e := Acknowledged(s.settled.value.turnId);
      TraceStep(s.trace, e);
      forall say { InjectedGrows(s.trace, e, say); }
    }
  }

  lemma OperatorBase(s: State, turnId: string)
    requires Base(s)
    ensures Base(OperatorSays(s, turnId))
  {
    forall say | Answered(s.log, say) ensures Answered(s.log + [Line(Operator, turnId)], say) {
      AnsweredGrows(s.log, [Line(Operator, turnId)], say);
    }
  }

  lemma HostReports(s: State, k: nat)
    requires LinesAreReports(s) && Sourced(s) && k < |s.sent|
    ensures LinesAreReports(HostProcesses(s, k)) && Sourced(HostProcesses(s, k))
  {
    var r, t := s.sent[k], HostProcesses(s, k);
    if Answered(Held(s.log), r.turnId) {
      HeldIsAnswered(s.log, r.turnId);
    } else {
      LineSays(t.log, |s.log|);
      forall say | Answered(s.log, say) ensures Answered(t.log, say) {
        AnsweredGrows(s.log, [Line(Spirit, r.turnId)], say);
      }
    }
    forall say | Key(say) in t.processed ensures Answered(t.log, say) && WasSent(t.sent, say) {
      if Key(say) !in s.processed { KeyIsInjective(say, r.turnId); }
    }
  }

  lemma HostBase(s: State, k: nat)
    requires Base(s)
    ensures Base(HostProcesses(s, k))
  {
    if k < |s.sent| { HostReports(s, k); }
  }

  /** Late re-says and revived reports included. */
  lemma StepBase(generated: Generated, s: State, e: Event)
    requires Base(s)
    ensures Base(Step(generated, s, e))
  {
    match e
    case EvTick(top, idle) => TickBase(s, top, idle);
    case EvSnapshot(n, top, idle) => SnapshotBase(s, n, top, idle);
    case EvSnapshotLost =>
    case EvTurnEnd(messages, top) => TurnEndBase(s, generated, messages, top);
    case EvToolStep(_) =>
    case EvAcked => AckedBase(s);
    case EvFailed =>
    case EvStop =>
    case EvOperator(turnId) => OperatorBase(s, turnId);
    case EvHost(k) => HostBase(s, k);
  }

  lemma {:induction false} RunBase(generated: Generated, events: seq<Event>)
    ensures Base(Run(generated, events))
  {
    if events != [] {
      RunBase(generated, Front(events));
      StepBase(generated, Run(generated, Front(events)), Last(events));
    }
  }

  // ---------------------------------------------------------------- the order of what is said and injected

  lemma DeliverKeeps(s: State, top: bool)
    requires Inv(s) && s.polling.None?
    ensures Inv(Deliver(s, top))
  {
    DeliverBase(s, top);
  }

  lemma TickKeeps(s: State, top: bool, idle: bool)
    requires Inv(s)
    ensures Inv(Tick(s, top, idle))
  {
    if s.polling.None? { DeliverKeeps(s, top); }
  }

  lemma SettlesLater(t: seq<Entry>, log: seq<Line>, n: nat, m: nat, pending: Option<string>)
    requires n <= m <= |log| && Settles(t, log, n, pending)
    ensures Settles(t, log, m, pending)
  {
    assert log[..m] == log[..n] + log[n..m];
    forall say | Answered(log[..n], say) ensures Answered(log[..m], say) {
      AnsweredGrows(log[..n], log[n..m], say);
    }
  }

  /** A held operator line with an answer further down is answered within what is held. */
  lemma HeldAnswer(log: seq<Line>, n: nat, j: nat)
    requires n <= |log| && SaidBefore(log) && Start(n) <= j < n && log[j].author.Operator?
    requires Answered(log[..n], log[j].turnId)
    ensures Answered(Held(log[..n]), log[j].turnId)
  {
    var k :| 0 <= k < n && log[..n][k] == Line(Spirit, log[j].turnId);
    assert log[k] == log[..n][k] && j < k;
    assert Held(log[..n])[k - Start(n)] == log[k];
  }

  /** The line chosen is a new say, further down the log than every one before. */
  lemma ChosenIsNew(s: State, n: nat, k: nat)
    requires Inv(s) && s.polling.Some? && s.polling.value <= n <= |s.log|
    requires NextUnanswered(Held(s.log[..n])) < |Held(s.log[..n])| && k < |s.trace| && s.trace[k].Injected?
    ensures var at := Start(n) + NextUnanswered(Held(s.log[..n]));
            at < n && s.trace[k].at < at && s.trace[k].say != s.log[at].turnId && s.log[at].author.Operator?
  {
    var lines, i := Held(s.log[..n]), NextUnanswered(Held(s.log[..n]));
    var at := Start(n) + i;
    assert lines[i] == s.log[at];
    SettlesLater(s.trace, s.log, s.polling.value, n, None);
    assert !Answered(s.log[..n], s.log[at].turnId) by {
      if Answered(s.log[..n], s.log[at].turnId) { HeldAnswer(s.log, n, at); }
    }
    assert Answered(s.log[..n], s.trace[k].say) && Passed(s.log, s.trace[k].at, n);
  }

  lemma InjectOrder(s: State, i: nat)
    requires InLogOrder(s.trace, s.log) && i < |s.log| && s.log[i].author.Operator?
    requires forall k :: 0 <= k < |s.trace| && s.trace[k].Injected? ==>
               s.trace[k].at < i && s.trace[k].say != s.log[i].turnId
    ensures InLogOrder(Inject(s, i).trace, s.log)
  {
  }

  lemma InjectKeeps(s: State, n: nat, at: nat)
    requires Inv(s) && Chosen(s, n, at)
    ensures at < |s.log| && Inv(Inject(s.(polling := None), at))
  {
    ChosenIsOperator(s, n, at);
    var u := s.(polling := None);
    forall k | 0 <= k < |s.trace| && s.trace[k].Injected?
      ensures s.trace[k].at < at && s.trace[k].say != s.log[at].turnId
    {
      ChosenIsNew(s, n, k);
    }
    InjectOrder(u, at);
    InjectBase(s, at);
    InjectSettles(s, n, at);
    InjectTransmissions(s, at);
  }

  lemma InjectSettles(s: State, n: nat, at: nat)
    requires Inv(s) && Chosen(s, n, at) && at < n
    ensures Settles(s.trace + [Injected(s.log[at].turnId, at)], s.log, |s.log|, Some(s.log[at].turnId))
  {
    SettlesLater(s.trace, s.log, s.polling.value, |s.log|, None);
    forall j | Start(|s.log|) <= j < at && s.log[j].author.Operator?
      ensures Answered(s.log[..|s.log|], s.log[j].turnId)
    {
      EarlierAnswered(s, n, at, j);
    }
  }

  lemma EarlierAnswered(s: State, n: nat, at: nat, j: nat)
    requires Chosen(s, n, at) && Start(|s.log|) <= j < at < n && s.log[j].author.Operator?
    ensures Answered(s.log[..|s.log|], s.log[j].turnId)
  {
    var lines := Held(s.log[..n]);
    assert lines[j - Start(n)] == s.log[j];
    HeldIsAnswered(s.log[..n], s.log[j].turnId);
    AnsweredGrows(s.log[..n], s.log[n..], s.log[j].turnId);
    assert s.log[..|s.log|] == s.log[..n] + s.log[n..];
  }

  lemma InjectTransmissions(s: State, i: nat)
    requires Inv(s) && s.polling.Some? && i < |s.log|
    requires forall k :: 0 <= k < |s.trace| && s.trace[k].Injected? ==> s.trace[k].say != s.log[i].turnId
    ensures Transmissions(Inject(s.(polling := None), i))
  {
    assert s.settled.None?;
    assert forall k :: 0 <= k < |s.sent| ==> WasInjected(s.trace, s.sent[k].turnId);
  }

  lemma SnapshotKeeps(s: State, n: nat, top: bool, idle: bool)
    requires Inv(s)
    ensures Inv(SnapshotBack(s, n, top, idle))
  {
    if s.polling.Some? && s.polling.value <= n <= |s.log| {
      UnaskedKeeps(s);
      var at := Start(n) + NextUnanswered(Held(s.log[..n]));
      if Chosen(s, n, at) { InjectKeeps(s, n, at); }
      SnapshotCases(s, n, top, idle);
    }
  }

  lemma UnaskedKeeps(s: State)
    requires Inv(s)
    ensures Inv(s.(polling := None))
  {
  }

  lemma TurnEndKeeps(s: State, generated: Generated, messages: seq<Message>, top: bool)
    requires Inv(s)
    ensures Inv(TurnEnd(s, generated, messages, top))
  {
    TurnEndCases(s, generated, messages, top);
    if s.pendingSay.Some? && s.settled.None? {
      var answer := Capture(generated, messages, s.pendingSay.value);
      if answer.Some? { DeliverKeeps(s.(settled := Some(ReportFor(s, s.pendingSay.value, answer.value))), top); }
    }
  }

  lemma AckedKeeps(s: State)
    requires Inv(s)
    ensures Inv(ReportAcked(s))
  {
    AckedBase(s);
    if s.reporting && s.settled.value.key in s.processed {
      AckedSettles(s);
      AckedOrder(s);
    }
  }

  lemma AckedOrder(s: State)
    requires Phases(s) && InLogOrder(s.trace, s.log) && Transmissions(s) && s.reporting
    ensures InLogOrder(ReportAcked(s).trace, s.log) && ReportAcked(s).polling.None? && ReportAcked(s).log == s.log
    ensures Transmissions(ReportAcked(s))
  {
  }

  lemma AckedSettles(s: State)
    requires Inv(s) && s.reporting && s.settled.value.key in s.processed
    ensures Settles(ReportAcked(s).trace, s.log, |s.log|, None)
  {
    assert s.log[..|s.log|] == s.log;
  }

  /** One more line changes nothing of what is answered and passed. */
  lemma LogGrows(s: State, line: Line)
    requires Inv(s)
    ensures var log := s.log + [line];
            && InLogOrder(s.trace, log)
            && Settles(s.trace, log, |log|, s.pendingSay)
            && (s.polling.Some? ==> Settles(s.trace, log, s.polling.value, None))
            && (forall say :: Answered(s.log, say) ==> Answered(log, say))
  {
    var log := s.log + [line];
    forall say | Answered(s.log, say) ensures Answered(log, say) { AnsweredGrows(s.log, [line], say); }
    PrefixSettles(s.trace, s.log, log, |s.log|, s.pendingSay);
    SettlesLater(s.trace, log, |s.log|, |log|, s.pendingSay);
    if s.polling.Some? { PrefixSettles(s.trace, s.log, log, s.polling.value, None); }
  }

  lemma PrefixSettles(t: seq<Entry>, log: seq<Line>, more: seq<Line>, n: nat, pending: Option<string>)
    requires log <= more && InLogOrder(t, log) && n <= |log| && Settles(t, log, n, pending)
    ensures Settles(t, more, n, pending)
  {
    assert more[..n] == log[..n];
    assert forall j :: 0 <= j < |log| ==> more[j] == log[j];
  }

  /** A say said again although its line is no longer held: the Host takes it for a new one. */
  predicate LateResay(s: State, e: Event) {
    e.EvOperator? && Says(s.log, e.turnId) && !Says(Held(s.log), e.turnId)
  }

  /** A say said again that way after its report was processed: nothing the Host or the doorman holds
      tells it from a new one. */
  predicate Reopens(s: State, e: Event) {
    LateResay(s, e) && Key(e.turnId) in s.processed
  }

  lemma InjectedIsSaid(s: State, say: string)
    requires InLogOrder(s.trace, s.log) && WasInjected(s.trace, say)
    ensures Says(s.log, say)
  {
    var k :| 0 <= k < |s.trace| && s.trace[k].Injected? && s.trace[k].say == say;
    assert s.log[s.trace[k].at] == Line(Operator, say);
  }

  lemma OperatorKeeps(s: State, turnId: string)
    requires Inv(s) && !Reopens(s, EvOperator(turnId))
    ensures Inv(OperatorSays(s, turnId))
  {
    OperatorBase(s, turnId);
    if !Blank(turnId) && !Says(Held(s.log), turnId) {
      LogGrows(s, Line(Operator, turnId));
      SaidUnanswered(s, turnId);
    }
  }

  /** What the Host takes for a new say was not answered before. */
  lemma SaidUnanswered(s: State, turnId: string)
    requires Inv(s) && !Reopens(s, EvOperator(turnId)) && !Says(Held(s.log), turnId)
    ensures SaidBefore(s.log + [Line(Operator, turnId)])
  {
    if WasInjected(s.trace, turnId) { InjectedIsSaid(s, turnId); }
  }

  lemma SpiritSaysNothing(log: seq<Line>, say: string)
    requires SaidBefore(log)
    ensures SaidBefore(log + [Line(Spirit, say)])
  {
  }

  lemma HostKeeps(s: State, k: nat)
    requires Inv(s)
    ensures Inv(HostProcesses(s, k))
  {
    HostBase(s, k);
    if k < |s.sent| && !Answered(Held(s.log), s.sent[k].turnId) {
      LogGrows(s, Line(Spirit, s.sent[k].turnId));
      SpiritSaysNothing(s.log, s.sent[k].turnId);
    }
  }

  // ---------------------------------------------------------------- every history

  lemma StepKeeps(generated: Generated, s: State, e: Event)
    requires Inv(s) && !Reopens(s, e)
    ensures Inv(Step(generated, s, e))
  {
    match e
    case EvTick(top, idle) => TickKeeps(s, top, idle);
    case EvSnapshot(n, top, idle) => SnapshotKeeps(s, n, top, idle);
    case EvTurnEnd(messages, top) => TurnEndKeeps(s, generated, messages, top);
    case EvAcked => AckedKeeps(s);
    case EvOperator(turnId) => OperatorKeeps(s, turnId);
    case EvHost(k) => HostKeeps(s, k);
    case _ =>
  }

  predicate ReopensAt(generated: Generated, events: seq<Event>, j: nat)
    requires j < |events|
  {
    Reopens(Run(generated, events[..j]), events[j])
  }

  /** No say is said again after its report was processed and its line dropped. */
  ghost predicate NoReopening(generated: Generated, events: seq<Event>) {
    forall j :: 0 <= j < |events| ==> !ReopensAt(generated, events, j)
  }

  /** What happens at one place of a history is the same however it goes on. */
  lemma ReopensAtLonger(generated: Generated, events: seq<Event>, more: seq<Event>, j: nat)
    requires j < |events|
    ensures ReopensAt(generated, events + more, j) <==> ReopensAt(generated, events, j)
  {
    assert (events + more)[..j] == events[..j];
  }

  lemma NoReopeningStep(generated: Generated, events: seq<Event>, e: Event)
    ensures NoReopening(generated, events + [e])
            <==> NoReopening(generated, events) && !Reopens(Run(generated, events), e)
  {
    var n := |events|;
    assert (events + [e])[..n] == events;
    assert ReopensAt(generated, events + [e], n) <==> Reopens(Run(generated, events), e);
    forall j | 0 <= j < n { ReopensAtLonger(generated, events, [e], j); }
  }

  lemma {:induction false} RunKeeps(generated: Generated, events: seq<Event>)
    requires NoReopening(generated, events)
    ensures Inv(Run(generated, events))
  {
    if events != [] {
      assert events == Front(events) + [Last(events)];
      NoReopeningStep(generated, Front(events), Last(events));
      RunKeeps(generated, Front(events));
      StepKeeps(generated, Run(generated, Front(events)), Last(events));
    }
  }
}
