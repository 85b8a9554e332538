/** The chat doorman of one session, cut at its awaits, and the Host it talks to.

    The Host keeps the last 256 lines and refuses a line that one of these repeats; `log` is every line
    it ever took.  What the doorman transmits may be lost, be processed late, or be processed again; a
    snapshot is what the Host held at some moment between the request and the answer. */
module ChatModel {
  import opened Basics
  import opened ChatAnswer

  datatype Author = Operator | Spirit

  datatype Line = Line(author: Author, turnId: string)

  datatype Report = Report(key: string, turnId: string, answer: Answer, steps: seq<string>)

  datatype Entry = Injected(say: string, at: nat) | Transmitted(report: Report) | Acknowledged(say: string)

  /** `polling` is the length of the log when the pending snapshot was asked for; `processed` are the keys
      of the reports the Host has taken in, whether or not they brought a line. */
  datatype State = State(
    pendingSay: Option<string>,
    steps: Option<seq<string>>,
    settled: Option<Report>,
    polling: Option<nat>,
    reporting: bool,
    stopped: bool,
    // the Host
    log: seq<Line>,
    processed: set<string>,
    sent: seq<Report>,
    trace: seq<Entry>)

  const INITIAL := State(None, None, None, None, false, false, [], {}, [], [])

  /** A string is false in JavaScript when it is empty. */
  predicate Truthy(say: Option<string>) {
    say.Some? && say.value != ""
  }

  function Key(say: string): string {
    "chat-turn:" + say
  }

  predicate Answered(lines: seq<Line>, say: string) {
    exists k :: 0 <= k < |lines| && lines[k] == Line(Spirit, say)
  }

  const CHAT_MAX_ENTRIES := 256

  function Start(n: nat): nat {
    if n <= CHAT_MAX_ENTRIES then 0 else n - CHAT_MAX_ENTRIES
  }

  /** What the Host still holds of a log. */
  function Held(log: seq<Line>): seq<Line> {
    log[Start(|log|)..]
  }

  /** The first operator line no spirit line answers, in the order of the lines. */
  function NextUnanswered(lines: seq<Line>): (i: nat)
    ensures i <= |lines|
    ensures i < |lines| ==> lines[i].author.Operator? && !Answered(lines, lines[i].turnId)
    ensures forall k :: 0 <= k < i ==> lines[k].author.Operator? ==> Answered(lines, lines[k].turnId)
  {
    FirstOf(lines, 0)
  }

  function FirstOf(lines: seq<Line>, from: nat): (i: nat)
    requires from <= |lines|
    ensures from <= i <= |lines|
    ensures i < |lines| ==> lines[i].author.Operator? && !Answered(lines, lines[i].turnId)
    ensures forall k :: from <= k < i ==> lines[k].author.Operator? ==> Answered(lines, lines[k].turnId)
    decreases |lines| - from
  {
    if from == |lines| || (lines[from].author.Operator? && !Answered(lines, lines[from].turnId)) then from
    else FirstOf(lines, from + 1)
  }

  // ---------------------------------------------------------------- the doorman

  function Deliver(s: State, top: bool): State {
    if s.settled.None? || s.stopped || s.reporting || !top then s
    else s.(reporting := true, sent := s.sent + [s.settled.value],
            trace := s.trace + [Transmitted(s.settled.value)])
  }

  function Tick(s: State, top: bool, idle: bool): State {
    if s.stopped || s.polling.Some? || s.reporting || !top then s
    else if s.settled.Some? then Deliver(s, top)
    else if Truthy(s.pendingSay) || !idle then s
    else s.(polling := Some(|s.log|))
  }

  function Inject(s: State, i: nat): State
    requires i < |s.log|
  {
    s.(pendingSay := Some(s.log[i].turnId), steps := Some([]), trace := s.trace + [Injected(s.log[i].turnId, i)])
  }

  /** The snapshot comes back as what the Host held of the first n lines. */
  function SnapshotBack(s: State, n: nat, top: bool, idle: bool): State {
    if s.polling.None? || !(s.polling.value <= n <= |s.log|) then s
    else
      var t := s.(polling := None);
      if s.stopped || !top || !idle then t
      else
        var lines := Held(s.log[..n]);
        var i := NextUnanswered(lines);
        if i == |lines| then t else Inject(t, Start(n) + i)
  }

  function SnapshotLost(s: State): State {
    s.(polling := None)
  }

  /** `noteChatTurnEnd`: captures the answer once, and reports it. */
  function TurnEnd(s: State, generated: Generated, messages: seq<Message>, top: bool): State {
    if s.stopped || !Truthy(s.pendingSay) || s.settled.Some? || !top then s
    else
      var say := s.pendingSay.value;
      match Capture(generated, messages, say)
      case None => s
      case Some(answer) =>
        var report := Report(Key(say), say, answer, if s.steps.Some? then s.steps.value else []);
        Deliver(s.(settled := Some(report)), top)
  }

  /** Tool steps of the answer that is forming. */
  function ToolStep(s: State, step: string): State {
    if s.steps.None? || s.settled.Some? || s.stopped then s
    else s.(steps := Some(s.steps.value + [step]))
  }

  /** The acknowledgement of the transmission in flight.  The Host acknowledges what it has. */
  function ReportAcked(s: State): State {
    if !s.reporting || s.settled.None? || s.settled.value.key !in s.processed then s
    else s.(reporting := false, pendingSay := None, steps := None, settled := None,
            trace := s.trace + [Acknowledged(s.settled.value.turnId)])
  }

  function ReportFailed(s: State): State {
    s.(reporting := false)
  }

  function Stopping(s: State): State {
    s.(stopped := true)
  }

  // ---------------------------------------------------------------- the Host

  predicate IsSpace(c: char) {
    c == ' ' || c == '\t' || c == '\n' || c == '\r'
  }

  predicate Blank(say: string) {
    forall i :: 0 <= i < |say| ==> IsSpace(say[i])
  }

  predicate Says(lines: seq<Line>, say: string) {
    exists k :: 0 <= k < |lines| && lines[k] == Line(Operator, say)
  }

  /** A blank say id is refused, and a say whose line is still held is a retry. */
  function OperatorSays(s: State, turnId: string): State {
    if Blank(turnId) || Says(Held(s.log), turnId) then s else s.(log := s.log + [Line(Operator, turnId)])
  }

  /** Any transmission ever made may be processed, at any later time, any number of times. */
  function HostProcesses(s: State, k: nat): State {
    if k >= |s.sent| then s
    else
      var r := s.sent[k];
      var t := s.(processed := s.processed + {r.key});
      if Answered(Held(s.log), r.turnId) then t else t.(log := s.log + [Line(Spirit, r.turnId)])
  }

  // ---------------------------------------------------------------- histories

  datatype Event =
    | EvTick(top: bool, idle: bool)
    | EvSnapshot(n: nat, top: bool, idle: bool)
    | EvSnapshotLost
    | EvTurnEnd(messages: seq<Message>, top: bool)
    | EvToolStep(step: string)
    | EvAcked
    | EvFailed
    | EvStop
    | EvOperator(turnId: string)
    | EvHost(k: nat)

  function Step(generated: Generated, s: State, e: Event): State {
    match e
    case EvTick(top, idle) => Tick(s, top, idle)
    case EvSnapshot(n, top, idle) => SnapshotBack(s, n, top, idle)
    case EvSnapshotLost => SnapshotLost(s)
    case EvTurnEnd(messages, top) => TurnEnd(s, generated, messages, top)
    case EvToolStep(step) => ToolStep(s, step)
    case EvAcked => ReportAcked(s)
    case EvFailed => ReportFailed(s)
    case EvStop => Stopping(s)
    case EvOperator(turnId) => OperatorSays(s, turnId)
    case EvHost(k) => HostProcesses(s, k)
  }

  function Run(generated: Generated, events: seq<Event>): State {
    if events == [] then INITIAL else Step(generated, Run(generated, Front(events)), Last(events))
  }
}
