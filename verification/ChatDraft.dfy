/** The draft kept on the Host while an answer forms: throttled reports, one in flight at a time.
    Events are those of the owned draft of a say that is neither settled nor stopped. */
module ChatDraft {
  import opened Basics

  datatype Shown = Shown(text: string, thinking: seq<string>, steps: seq<string>)

  /** `sent` is what the latest report carried. */
  datatype Draft = Draft(
    text: string,
    thinking: seq<string>,
    completedThinking: seq<string>,
    steps: seq<string>,
    dirty: bool,
    flushing: bool,
    timer: bool,
    reports: nat,
    sent: Shown)

  const BLANK := Draft("", [], [], [], false, false, false, 0, Shown("", [], []))

  function Current(d: Draft): Shown {
    Shown(d.text, d.completedThinking + d.thinking, d.steps)
  }

  function Schedule(d: Draft): Draft {
    d.(dirty := true, timer := true)
  }

  function MessageUpdate(d: Draft, text: string, thinking: seq<string>): Draft {
    if text == d.text && thinking == d.thinking then d
    else Schedule(d.(text := text, thinking := thinking))
  }

  /** A new assistant message keeps earlier thinking and replaces the text. */
  function MessageStart(d: Draft, text: string, thinking: seq<string>): Draft {
    var cleared := d.(completedThinking := d.completedThinking + d.thinking, thinking := [], text := "");
    MessageUpdate(cleared, text, thinking)
  }

  function ToolStart(d: Draft, toolCallId: string): Draft {
    if toolCallId in d.steps then d else Schedule(d.(steps := d.steps + [toolCallId]))
  }

  function Flush(d: Draft): Draft {
    if d.flushing then d
    else d.(flushing := true, dirty := false, reports := d.reports + 1, sent := Current(d))
  }

  function TimerFired(d: Draft): Draft {
    if d.timer then Flush(d.(timer := false)) else d
  }

  function ReportDone(d: Draft): Draft {
    if !d.flushing then d
    else
      var t := d.(flushing := false);
      if t.dirty then Schedule(t) else t
  }

  datatype Event =
    | EvUpdate(text: string, thinking: seq<string>)
    | EvStart(text: string, thinking: seq<string>)
    | EvTool(toolCallId: string)
    | EvTimer
    | EvDone

  function Step(d: Draft, e: Event): Draft {
    match e
    case EvUpdate(text, thinking) => MessageUpdate(d, text, thinking)
    case EvStart(text, thinking) => MessageStart(d, text, thinking)
    case EvTool(toolCallId) => ToolStart(d, toolCallId)
    case EvTimer => TimerFired(d)
    case EvDone => ReportDone(d)
  }

  /** Unreported content has a timer or a report in flight to wait for. */
  ghost predicate Lively(d: Draft) {
    d.dirty ==> d.timer || d.flushing
  }

  /** A draft that is not dirty was reported as it is. */
  ghost predicate Faithful(d: Draft) {
    d.dirty || d.sent == Current(d)
  }

  lemma StepLively(d: Draft, e: Event)
    requires Lively(d)
    ensures Lively(Step(d, e))
    ensures Step(d, e).reports == d.reports || (Step(d, e).reports == d.reports + 1 && !d.flushing)
  {
  }

  /** A message starts with neither text nor thinking while the text shown has been reported. */
  predicate Loses(d: Draft, e: Event) {
    e.EvStart? && e.text == "" && e.thinking == [] && d.text != "" && !d.dirty
  }

  /** A message that starts with neither text nor thinking clears the shown text without marking the
      draft dirty: of all events it alone can leave the Host showing text the draft no longer has, and
      does so if and only if it drops text already reported. */
  lemma StepFaithful(d: Draft, e: Event)
    requires Faithful(d)
    ensures Faithful(Step(d, e)) <==> !Loses(d, e)
  {
    assert d.completedThinking + d.thinking + [] == d.completedThinking + d.thinking;
  }

  /** Left alone, a dirty draft is reported as it is: at most the report in flight and the timer pass. */
  lemma CatchesUp(d: Draft)
    requires Lively(d) && d.dirty
    ensures var t := TimerFired(ReportDone(d)); t.sent == Current(d) == Current(t) && !t.dirty
  {
  }

  lemma StepsDistinct(d: Draft, e: Event)
    requires NoDuplicates(d.steps)
    ensures NoDuplicates(Step(d, e).steps) && d.steps <= Step(d, e).steps
  {
  }

  // ---------------------------------------------------------------- every history of one draft

  function Run(events: seq<Event>): Draft {
    if events == [] then BLANK else Step(Run(Front(events)), Last(events))
  }

  /** Over every history unreported content is on its way, and no tool call is shown twice. */
  lemma {:induction false} RunLively(events: seq<Event>)
    ensures Lively(Run(events)) && NoDuplicates(Run(events).steps)
  {
    if events != [] {
      RunLively(Front(events));
      StepLively(Run(Front(events)), Last(events));
      StepsDistinct(Run(Front(events)), Last(events));
    }
  }

  /** Text reported, then a message that starts empty: the Host goes on showing the text. */
  lemma TextLingers()
    ensures var d := Run([EvUpdate("text", []), EvTimer, EvDone, EvStart("", [])]);
            !d.dirty && !d.timer && !d.flushing && d.sent.text == "text" && d.text == ""
  {
    var events := [EvUpdate("text", []), EvTimer, EvDone, EvStart("", [])];
    RunNext(events, 0);
    RunNext(events, 1);
    RunNext(events, 2);
    RunNext(events, 3);
    assert events[..0] == [] && events[..4] == events;
  }

  ghost predicate AlwaysFaithful(events: seq<Event>) {
    forall j :: 0 <= j <= |events| ==> Faithful(Run(events[..j]))
  }

  ghost predicate NeverLoses(events: seq<Event>) {
    forall j :: 0 <= j < |events| ==> !Loses(Run(events[..j]), events[j])
  }

  lemma RunNext(events: seq<Event>, j: nat)
    requires j < |events|
    ensures Run(events[..j + 1]) == Step(Run(events[..j]), events[j])
  {
    assert Front(events[..j + 1]) == events[..j];
  }

  lemma {:induction false} FaithfulUpTo(events: seq<Event>, j: nat)
    requires NeverLoses(events) && j <= |events|
    ensures Faithful(Run(events[..j]))
  {
    if j > 0 {
      FaithfulUpTo(events, j - 1);
      RunNext(events, j - 1);
      StepFaithful(Run(events[..j - 1]), events[j - 1]);
    }
  }

  /** Over every history a draft that is not dirty was always reported as it was, if and only if no message
      started empty over reported text. */
  lemma FaithfulIff(events: seq<Event>)
    ensures AlwaysFaithful(events) <==> NeverLoses(events)
  {
    if AlwaysFaithful(events) {
      forall j | 0 <= j < |events| ensures !Loses(Run(events[..j]), events[j]) {
        RunNext(events, j);
        StepFaithful(Run(events[..j]), events[j]);
      }
    } else if NeverLoses(events) {
      forall j | 0 <= j <= |events| ensures Faithful(Run(events[..j])) { FaithfulUpTo(events, j); }
    }
  }

  // ---------------------------------------------------------------- what the draft shows

  /** The text of the latest message. */
  function LatestText(events: seq<Event>): string {
    if events == [] then ""
    else
      match Last(events)
      case EvUpdate(text, _) => text
      case EvStart(text, _) => text
      case _ => LatestText(Front(events))
  }

  /** The thinking of the latest message. */
  function LatestThinking(events: seq<Event>): seq<string> {
    if events == [] then []
    else
      match Last(events)
      case EvUpdate(_, thinking) => thinking
      case EvStart(_, thinking) => thinking
      case _ => LatestThinking(Front(events))
  }

  /** The thinking of the messages before the latest. */
  function EarlierThinking(events: seq<Event>): seq<string> {
    if events == [] then []
    else if Last(events).EvStart? then EarlierThinking(Front(events)) + LatestThinking(Front(events))
    else EarlierThinking(Front(events))
  }

  /** The tool calls started, each where it came first. */
  function ToolsStarted(events: seq<Event>): seq<string> {
    if events == [] then []
    else
      var e, before := Last(events), ToolsStarted(Front(events));
      if e.EvTool? && e.toolCallId !in before then before + [e.toolCallId] else before
  }

  /** Whatever is reported and whenever: the draft shows the latest message's text, all thinking so far, and the
      tool calls in the order they started. */
  lemma {:induction false} DraftIsWhatHappened(events: seq<Event>)
    ensures Current(Run(events))
         == Shown(LatestText(events), EarlierThinking(events) + LatestThinking(events), ToolsStarted(events))
    ensures Run(events).completedThinking == EarlierThinking(events)
    ensures Run(events).thinking == LatestThinking(events)
  {
    if events != [] {
      DraftIsWhatHappened(Front(events));
      var d := Run(Front(events));
      assert d.steps == Current(d).steps && d.text == Current(d).text;
    }
  }

  /** A report goes out exactly when the timer fires with none on its way, and carries the draft as it is. */
  lemma ReportsIff(d: Draft, e: Event)
    ensures var t := Step(d, e);
            if e.EvTimer? && d.timer && !d.flushing
            then t.reports == d.reports + 1 && t.sent == Current(d) && t.flushing && !t.dirty && !t.timer
            else t.reports == d.reports && t.sent == d.sent && (t.flushing <==> d.flushing && !e.EvDone?)
  {
  }

  /** The event brings something the draft does not show yet, or ends a report during which something came. */
  predicate BringsNews(d: Draft, e: Event) {
    match e
    case EvUpdate(text, thinking) => text != d.text || thinking != d.thinking
    case EvStart(text, thinking) => text != "" || thinking != []
    case EvTool(toolCallId) => toolCallId !in d.steps
    case EvTimer => false
    case EvDone => d.flushing && d.dirty
  }

  /** A report is scheduled exactly by news, and due until the timer fires; and there is something to report from
      the news until its report goes out. */
  lemma ScheduledIff(d: Draft, e: Event)
    ensures Step(d, e).timer <==> BringsNews(d, e) || (d.timer && !e.EvTimer?)
    ensures Step(d, e).dirty <==> BringsNews(d, e) || (d.dirty && !(e.EvTimer? && d.timer && !d.flushing))
  {
  }
}
