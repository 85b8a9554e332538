/** Says answered one after the other until the Host has dropped the first: what happens when that say
    is said again, and when its report is processed again. */
module ChatRounds {
  import opened Basics
  import opened ChatAnswer
  import opened ChatModel
  import opened ChatTheorems
  import opened ChatSafety

  const REPLY := Message(Assistant, None, Stopped, false, "ok", [])

  function Id(i: nat): string {
    seq(i + 1, _ => 'a')
  }

  lemma IdsDiffer(i: nat, j: nat)
    ensures Id(i) == Id(j) <==> i == j
    ensures !Blank(Id(i)) && Id(i) != ""
  {
    assert |Id(i)| == i + 1 && |Id(j)| == j + 1;
    assert Id(i)[0] == 'a' && !IsSpace('a');
  }

  function Origin(say: string): Message {
    Message(Custom, Some(say), NoStop, false, "", [])
  }

  /** A say is said, injected, answered, reported and acknowledged. */
  function Round(i: nat): seq<Event> {
    [EvOperator(Id(i)), EvTick(true, true), EvSnapshot(2 * i + 1, true, true),
     EvTurnEnd([Origin(Id(i)), REPLY], true), EvHost(i), EvAcked]
  }

  function Rounds(m: nat): seq<Event> {
    if m == 0 then [] else Rounds(m - 1) + Round(m - 1)
  }

  /** The log after m rounds: each say and its answer. */
  ghost predicate Pairs(log: seq<Line>, m: nat) {
    && |log| == 2 * m
    && forall i: nat :: i < m ==> log[2 * i] == Line(Operator, Id(i)) && log[2 * i + 1] == Line(Spirit, Id(i))
  }

  ghost predicate Rest(s: State, m: nat) {
    && s.pendingSay.None? && s.settled.None? && s.polling.None? && !s.reporting && !s.stopped
    && Pairs(s.log, m)
    && |s.sent| == m && (forall i: nat :: i < m ==> s.sent[i].turnId == Id(i) && s.sent[i].key == Key(Id(i)))
    && (forall i: nat :: i < m ==> Key(Id(i)) in s.processed)
    && (if m == 0 then s.trace == [] else s.trace != [] && s.trace[0] == Injected(Id(0), 0))
  }

  lemma PairAt(log: seq<Line>, m: nat, k: nat)
    requires Pairs(log, m) && k < 2 * m
    ensures log[k] == Line(if k % 2 == 0 then Operator else Spirit, Id(k / 2))
  {
    assert k == 2 * (k / 2) + k % 2;
  }

  lemma EarlierAreAnswered(log: seq<Line>, m: nat, say: string, i: nat)
    requires Pairs(log, m) && i < |Held(log + [Line(Operator, say)])| - 1
    ensures var lines := Held(log + [Line(Operator, say)]);
            lines[i].author.Operator? ==> Answered(lines, lines[i].turnId)
  {
    var all := log + [Line(Operator, say)];
    var lines, k := Held(all), Start(|all|) + i;
    PairAt(log, m, k);
    if k % 2 == 0 {
      PairAt(log, m, k + 1);
      assert lines[i + 1] == log[k + 1] == Line(Spirit, lines[i].turnId);
    }
  }

  /** Every line before the last say is answered, so that a poll chooses the last, if it is not. */
  lemma LastIsNext(log: seq<Line>, m: nat, say: string)
    requires Pairs(log, m)
    requires var lines := Held(log + [Line(Operator, say)]); !Answered(lines, say)
    ensures var lines := Held(log + [Line(Operator, say)]); NextUnanswered(lines) == |lines| - 1
  {
    var all := log + [Line(Operator, say)];
    var lines := Held(all);
    assert lines[|lines| - 1] == Line(Operator, say);
    var i := NextUnanswered(lines);
    if i < |lines| - 1 { EarlierAreAnswered(log, m, say, i); }
  }

  lemma Unsaid(log: seq<Line>, m: nat, say: string)
    requires Pairs(log, m) && forall i: nat :: i < m ==> Id(i) != say
    ensures !Says(log, say) && !Answered(log, say) && !Says(Held(log), say) && !Answered(Held(log), say)
  {
    forall k: nat | k < |log| ensures log[k].turnId != say { PairAt(log, m, k); }
    assert forall k: nat :: k < |Held(log)| ==> Held(log)[k] == log[Start(|log|) + k];
  }

  // ---------------------------------------------------------------- one round

  function Asked(s: State, say: string): State {
    s.(log := s.log + [Line(Operator, say)], polling := Some(|s.log| + 1))
  }

  /** The say is said and the next poll's snapshot asked for. */
  lemma SaidAndPolled(generated: Generated, s: State, m: nat, say: string)
    requires Rest(s, m) && !Blank(say) && !Says(Held(s.log), say)
    ensures Step(generated, Step(generated, s, EvOperator(say)), EvTick(true, true)) == Asked(s, say)
  {
  }

  lemma TakesWholeLog(t: State, n: nat)
    requires t.polling == Some(n) && n == |t.log| && !t.stopped && NextUnanswered(Held(t.log)) < |Held(t.log)|
    ensures var at := Start(n) + NextUnanswered(Held(t.log));
            at < |t.log| && SnapshotBack(t, n, true, true) == Inject(t.(polling := None), at)
  {
    assert t.log[..n] == t.log;
  }

  lemma IsInjected(generated: Generated, s: State, m: nat, say: string)
    requires Rest(s, m) && !Answered(Held(s.log + [Line(Operator, say)]), say)
    ensures var t := Asked(s, say);
            Step(generated, t, EvSnapshot(2 * m + 1, true, true)) == Inject(t.(polling := None), 2 * m)
  {
    LastIsNext(s.log, m, say);
    TakesWholeLog(Asked(s, say), 2 * m + 1);
  }

  lemma IsCaptured(generated: Generated, say: string, reply: Message)
    requires IsSettled(reply) && !OpensTurn(generated, reply)
    ensures Capture(generated, [Origin(say), reply], say) == Some(Answer(reply.text, reply.thoughts, OutcomeOf(reply)))
  {
    var messages := [Origin(say), reply];
    assert IsOrigin(messages[0], say) && !IsOrigin(messages[1], say);
    assert LastOrigin(messages, say) == 0;
    assert messages[1..] == [reply] && [reply][1..] == [];
    assert OwnedLength(generated, [reply]) == 1;
    var owned := Owned(generated, messages, say);
    assert owned == [reply];
    assert FirstSettled(owned) == 0 && owned[..1] == [reply];
    ThoughtsOfOne(reply);
  }

  function ReportOf(say: string): Report {
    Report(Key(say), say, Answer("ok", [], Complete), [])
  }

  function Reported(s: State, say: string): State {
    s.(pendingSay := Some(say), steps := Some([]), settled := Some(ReportOf(say)), reporting := true, polling := None,
       log := s.log + [Line(Operator, say)], sent := s.sent + [ReportOf(say)],
       trace := s.trace + [Injected(say, |s.log|)] + [Transmitted(ReportOf(say))])
  }

  lemma IsReported(generated: Generated, s: State, m: nat, say: string)
    requires Rest(s, m) && say != "" && !generated(REPLY)
    ensures var t := Inject(Asked(s, say).(polling := None), 2 * m);
            TurnEnd(t, generated, [Origin(say), REPLY], true) == Reported(s, say)
  {
    IsCaptured(generated, say, REPLY);
    var t := Inject(Asked(s, say).(polling := None), 2 * m);
    assert t.log[2 * m] == Line(Operator, say);
  }

  lemma IsAcknowledged(s: State, m: nat)
    requires Rest(s, m)
    ensures Rest(ReportAcked(HostProcesses(Reported(s, Id(m)), m)), m + 1)
  {
    var r := Reported(s, Id(m));
    assert r.sent[m] == ReportOf(Id(m));
    forall i: nat | i < m ensures Id(i) != Id(m) { IdsDiffer(i, m); }
    Unsaid(s.log, m, Id(m));
    assert !Answered(r.log, Id(m));
    if Answered(Held(r.log), Id(m)) { HeldIsAnswered(r.log, Id(m)); }
    var t := HostProcesses(r, m);
    assert t.log == s.log + [Line(Operator, Id(m))] + [Line(Spirit, Id(m))];
    assert t.trace[0] == if m > 0 then s.trace[0] else Injected(Id(0), 0);
  }

  lemma RunConcat(generated: Generated, events: seq<Event>, e: Event)
    ensures Run(generated, events + [e]) == Step(generated, Run(generated, events), e)
  {
    Snoc(events, e);
  }

  lemma RunThree(generated: Generated, events: seq<Event>, a: Event, b: Event, c: Event)
    ensures Run(generated, events + [a, b, c])
         == Step(generated, Step(generated, Step(generated, Run(generated, events), a), b), c)
  {
    RunConcat(generated, events, a);
    RunConcat(generated, events + [a], b);
    RunConcat(generated, events + [a] + [b], c);
    ThreeMore(events, a, b, c);
  }

  lemma ThreeMore(events: seq<Event>, a: Event, b: Event, c: Event)
    ensures events + [a] + [b] + [c] == events + [a, b, c]
  {
  }

  /** A say the Host takes for a new one, and finds unanswered, is injected at the next poll. */
  lemma SayIsInjected(generated: Generated, events: seq<Event>, m: nat, say: string)
    requires var s := Run(generated, events);
             && Rest(s, m) && !Blank(say) && !Says(Held(s.log), say)
             && !Answered(Held(s.log + [Line(Operator, say)]), say)
    ensures Run(generated, events + [EvOperator(say), EvTick(true, true), EvSnapshot(2 * m + 1, true, true)])
         == Inject(Asked(Run(generated, events), say).(polling := None), 2 * m)
  {
    var s := Run(generated, events);
    SaidAndPolled(generated, s, m, say);
    IsInjected(generated, s, m, say);
    RunThree(generated, events, EvOperator(say), EvTick(true, true), EvSnapshot(2 * m + 1, true, true));
  }

  lemma ReportIsTaken(generated: Generated, events: seq<Event>, s: State, m: nat)
    requires Rest(s, m) && !generated(REPLY)
    requires Run(generated, events) == Inject(Asked(s, Id(m)).(polling := None), 2 * m)
    ensures Rest(Run(generated, events + [EvTurnEnd([Origin(Id(m)), REPLY], true), EvHost(m), EvAcked]), m + 1)
  {
    IdsDiffer(m, m);
    IsReported(generated, s, m, Id(m));
    IsAcknowledged(s, m);
    RunThree(generated, events, EvTurnEnd([Origin(Id(m)), REPLY], true), EvHost(m), EvAcked);
  }

  lemma RoundRests(generated: Generated, events: seq<Event>, m: nat)
    requires Rest(Run(generated, events), m) && !generated(REPLY)
    ensures Rest(Run(generated, events + Round(m)), m + 1)
  {
    var s, id := Run(generated, events), Id(m);
    var first := [EvOperator(id), EvTick(true, true), EvSnapshot(2 * m + 1, true, true)];
    var second := [EvTurnEnd([Origin(id), REPLY], true), EvHost(m), EvAcked];
    IdIsNew(s, m);
    SayIsInjected(generated, events, m, id);
    ReportIsTaken(generated, events + first, s, m);
    assert events + first + second == events + Round(m);
  }

  lemma IdIsNew(s: State, m: nat)
    requires Rest(s, m)
    ensures !Blank(Id(m)) && Id(m) != "" && !Says(Held(s.log), Id(m))
    ensures !Answered(Held(s.log + [Line(Operator, Id(m))]), Id(m))
  {
    forall i: nat | i < m ensures Id(i) != Id(m) { IdsDiffer(i, m); }
    IdsDiffer(m, m);
    Unsaid(s.log, m, Id(m));
    NotYetAnswered(s.log, Id(m));
  }

  lemma NotYetAnswered(log: seq<Line>, say: string)
    requires !Answered(log, say)
    ensures !Answered(Held(log + [Line(Operator, say)]), say)
  {
    var all := log + [Line(Operator, say)];
    if Answered(Held(all), say) { HeldIsAnswered(all, say); }
  }

  lemma {:induction false} RoundsRest(generated: Generated, m: nat)
    requires !generated(REPLY)
    ensures Rest(Run(generated, Rounds(m)), m)
  {
    if m > 0 {
      RoundsRest(generated, m - 1);
      RoundRests(generated, Rounds(m - 1), m - 1);
    }
  }

  // ---------------------------------------------------------------- once the first say is dropped

  /** After 128 more rounds nothing of the first say is held. */
  lemma FirstIsDropped(log: seq<Line>, m: nat)
    requires Pairs(log, m) && 2 * m >= CHAT_MAX_ENTRIES + 2
    ensures !Says(Held(log), Id(0)) && !Answered(Held(log), Id(0))
    ensures !Answered(Held(log + [Line(Operator, Id(0))]), Id(0))
  {
    var all := log + [Line(Operator, Id(0))];
    forall k: nat | 2 <= k < |log| ensures log[k].turnId != Id(0) {
      PairAt(log, m, k);
      IdsDiffer(k / 2, 0);
    }
    assert forall k: nat :: k < |Held(log)| ==> Held(log)[k] == log[Start(|log|) + k];
    assert forall k: nat :: k < |Held(all)| ==> Held(all)[k] == all[Start(|all|) + k];
  }

  /** The first of 129 or more says is said again: the Host takes it for a new one, and it is injected twice. */
  lemma ResaidIsInjectedTwice(generated: Generated, m: nat)
    requires 2 * m >= CHAT_MAX_ENTRIES + 2 && !generated(REPLY)
    ensures var again := [EvOperator(Id(0)), EvTick(true, true), EvSnapshot(2 * m + 1, true, true)];
            var t := Run(generated, Rounds(m) + again).trace;
            |t| > 1 && t[0] == Injected(Id(0), 0) && t[|t| - 1] == Injected(Id(0), 2 * m)
  {
    var s := Run(generated, Rounds(m));
    RoundsRest(generated, m);
    FirstIsDropped(s.log, m);
    IdsDiffer(0, 0);
    SayIsInjected(generated, Rounds(m), m, Id(0));
    assert Asked(s, Id(0)).log[2 * m] == Line(Operator, Id(0));
  }

  /** The report of the first of 129 or more says is processed again: the say has two spirit lines. */
  lemma RevivedIsAnsweredTwice(generated: Generated, m: nat)
    requires 2 * m >= CHAT_MAX_ENTRIES + 2 && !generated(REPLY)
    ensures !AnsweredOnce(Run(generated, Rounds(m) + [EvHost(0)]).log)
  {
    var s := Run(generated, Rounds(m));
    RoundsRest(generated, m);
    FirstIsDropped(s.log, m);
    RunConcat(generated, Rounds(m), EvHost(0));
    assert HostProcesses(s, 0).log == s.log + [Line(Spirit, Id(0))];
    PairAt(s.log, m, 1);
    LineSays(s.log, 1);
    SpiritAnswers(s.log, Id(0));
  }
}
