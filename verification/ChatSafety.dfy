/** The theorems about one session's chat, and what breaks them. */
module ChatSafety {
  import opened Basics
  import opened ChatAnswer
  import opened ChatModel
  import opened ChatTheorems

  /** No say is injected twice, and says are injected in the order of the log, unless one is said again after
      its report was processed and its line dropped. */
  lemma InjectedOnce(generated: Generated, events: seq<Event>, j: nat, k: nat)
    requires NoReopening(generated, events) && j < k < |Run(generated, events).trace|
    requires Run(generated, events).trace[j].Injected? && Run(generated, events).trace[k].Injected?
    ensures Run(generated, events).trace[j].say != Run(generated, events).trace[k].say
    ensures Run(generated, events).trace[j].at < Run(generated, events).trace[k].at
  {
    RunKeeps(generated, events);
  }

  /** Whatever is open was injected, and anything later in the trace is not an injection. */
  lemma {:induction false} LastInjected(t: seq<Entry>) returns (m: nat)
    requires OneAtATime(t) && OpenSay(t).Some?
    ensures m < |t| && t[m].Injected? && t[m].say == OpenSay(t).value
    ensures forall k :: m < k < |t| ==> !t[k].Injected?
  {
    if Last(t).Injected? {
      m := |t| - 1;
    } else {
      m := LastInjected(Front(t));
      assert forall k :: 0 <= k < |t| - 1 ==> Front(t)[k] == t[k];
    }
  }

  lemma {:induction false} ClosedByAck(t: seq<Entry>, j: nat) returns (m: nat)
    requires OneAtATime(t) && j < |t| && t[j].Injected? && OpenSay(t) != Some(t[j].say)
    ensures j < m < |t| && t[m] == Acknowledged(t[j].say)
  {
    var f := Front(t);
    assert j < |f| ==> f[j] == t[j];
    if j < |f| && OpenSay(f) == Some(t[j].say) {
      m := |t| - 1;
    } else {
      m := ClosedByAck(f, j);
    }
  }

  lemma {:induction false} OneAtATimePrefix(t: seq<Entry>, k: nat)
    requires OneAtATime(t) && k < |t|
    ensures OneAtATime(t[..k]) && (t[k].Injected? ==> OpenSay(t[..k]).None?)
  {
    if k == |t| - 1 {
      assert t[..k] == Front(t);
    } else {
      OneAtATimePrefix(Front(t), k);
      assert Front(t)[..k] == t[..k];
    }
  }

  /** The next say is injected only after the report of the one before was acknowledged. */
  lemma NextAfterAcknowledgement(generated: Generated, events: seq<Event>, j: nat, k: nat) returns (m: nat)
    requires j < k < |Run(generated, events).trace|
    requires Run(generated, events).trace[j].Injected? && Run(generated, events).trace[k].Injected?
    ensures j < m < k && Run(generated, events).trace[m] == Acknowledged(Run(generated, events).trace[j].say)
  {
    var t := Run(generated, events).trace;
    RunBase(generated, events);
    OneAtATimePrefix(t, k);
    m := ClosedByAck(t[..k], j);
  }

  /** Every transmission for a say carries the same payload under the same idempotency key, and no
      two says share a key, unless a say is said again after its report was processed and its line dropped. */
  lemma RetriesRepeatTheReport(generated: Generated, events: seq<Event>, j: nat, k: nat)
    requires NoReopening(generated, events) && j < |Run(generated, events).sent| && k < |Run(generated, events).sent|
    ensures var a, b := Run(generated, events).sent[j], Run(generated, events).sent[k];
            && (a.turnId == b.turnId ==> a == b)
            && (a.key == b.key ==> a == b)
  {
    RunKeeps(generated, events);
    SameReport(Run(generated, events), j, k);
  }

  lemma SameReport(s: State, j: nat, k: nat)
    requires Transmissions(s) && LinesAreReports(s) && j < |s.sent| && k < |s.sent|
    ensures s.sent[j].turnId == s.sent[k].turnId ==> s.sent[j] == s.sent[k]
    ensures s.sent[j].key == s.sent[k].key ==> s.sent[j] == s.sent[k]
  {
    if s.sent[j].key == s.sent[k].key {
      KeyIsInjective(s.sent[j].turnId, s.sent[k].turnId);
    }
  }

  /** The Host is given a report again although its line is no longer held, and takes it for a new one. */
  predicate Revives(s: State, e: Event) {
    e.EvHost? && e.k < |s.sent| && s.sent[e.k].key in s.processed && !Answered(Held(s.log), s.sent[e.k].turnId)
  }

  ghost predicate AnsweredOnce(log: seq<Line>) {
    forall j, k :: 0 <= j < k < |log| && log[j].author.Spirit? && log[k].author.Spirit? ==>
      log[j].turnId != log[k].turnId
  }

  lemma OperatorAnswersNothing(log: seq<Line>, say: string)
    ensures AnsweredOnce(log + [Line(Operator, say)]) <==> AnsweredOnce(log)
  {
    var more := log + [Line(Operator, say)];
    assert forall j :: 0 <= j < |log| ==> more[j] == log[j];
  }

  lemma SpiritAnswers(log: seq<Line>, say: string)
    ensures AnsweredOnce(log + [Line(Spirit, say)]) <==> AnsweredOnce(log) && !Answered(log, say)
  {
    var more := log + [Line(Spirit, say)];
    assert forall j :: 0 <= j < |log| ==> more[j] == log[j];
    assert more[|log|] == Line(Spirit, say);
    if Answered(log, say) {
      var j :| 0 <= j < |log| && log[j] == Line(Spirit, say);
      assert more[j].author.Spirit? && more[j].turnId == more[|log|].turnId;
    } else {
      forall j: nat | j < |log| && log[j].author.Spirit? ensures Answered(log, log[j].turnId) { LineSays(log, j); }
    }
  }

  lemma StepAnswers(generated: Generated, s: State, e: Event)
    requires LinesAreReports(s)
    ensures AnsweredOnce(Step(generated, s, e).log) <==> AnsweredOnce(s.log) && !Revives(s, e)
  {
    match e
    case EvOperator(turnId) => OperatorAnswersNothing(s.log, turnId);
    case EvHost(k) => if k < |s.sent| { HostAnswers(s, k); }
    case _ =>
  }

  lemma HostAnswers(s: State, k: nat)
    requires LinesAreReports(s) && k < |s.sent|
    ensures AnsweredOnce(HostProcesses(s, k).log) <==> AnsweredOnce(s.log) && !Revives(s, EvHost(k))
  {
    SpiritAnswers(s.log, s.sent[k].turnId);
    if Answered(Held(s.log), s.sent[k].turnId) { HeldIsAnswered(s.log, s.sent[k].turnId); }
  }

  ghost predicate SaidAtMostOnce(log: seq<Line>) {
    forall j, k :: 0 <= j < k < |log| && log[j].author.Operator? && log[k].author.Operator? ==>
      log[j].turnId != log[k].turnId
  }

  lemma SpiritSaysNothingMore(log: seq<Line>, say: string)
    ensures SaidAtMostOnce(log + [Line(Spirit, say)]) <==> SaidAtMostOnce(log)
  {
    var more := log + [Line(Spirit, say)];
    assert forall j :: 0 <= j < |log| ==> more[j] == log[j];
  }

  lemma OperatorSaysMore(log: seq<Line>, say: string)
    ensures SaidAtMostOnce(log + [Line(Operator, say)]) <==> SaidAtMostOnce(log) && !Says(log, say)
  {
    var more := log + [Line(Operator, say)];
    assert forall j :: 0 <= j < |log| ==> more[j] == log[j];
    assert more[|log|] == Line(Operator, say);
    if Says(log, say) {
      var j :| 0 <= j < |log| && log[j] == Line(Operator, say);
      assert more[j].author.Operator? && more[j].turnId == more[|log|].turnId;
    } else {
      forall j: nat | j < |log| && log[j].author.Operator? ensures Says(log, log[j].turnId) { LineSays(log, j); }
    }
  }

  lemma StepSays(generated: Generated, s: State, e: Event)
    requires Named(s.log)
    ensures SaidAtMostOnce(Step(generated, s, e).log) <==> SaidAtMostOnce(s.log) && !LateResay(s, e)
  {
    match e
    case EvOperator(turnId) =>
      OperatorSaysMore(s.log, turnId);
      if Says(Held(s.log), turnId) { HeldIsSaid(s.log, turnId); }
    case EvHost(k) => if k < |s.sent| { SpiritSaysNothingMore(s.log, s.sent[k].turnId); }
    case _ =>
  }

  lemma HeldIsSaid(log: seq<Line>, say: string)
    requires Says(Held(log), say)
    ensures Says(log, say)
  {
    var k :| 0 <= k < |Held(log)| && Held(log)[k] == Line(Operator, say);
    assert log[Start(|log|) + k] == Line(Operator, say);
  }

  /** No say is said again after its line has been dropped. */
  ghost predicate NoLateResay(generated: Generated, events: seq<Event>) {
    forall j :: 0 <= j < |events| ==> !ResaidAt(generated, events, j)
  }

  predicate ResaidAt(generated: Generated, events: seq<Event>, j: nat)
    requires j < |events|
  {
    LateResay(Run(generated, events[..j]), events[j])
  }

  lemma ResaidAtFront(generated: Generated, events: seq<Event>, j: nat)
    requires j < |events| - 1
    ensures ResaidAt(generated, Front(events), j) <==> ResaidAt(generated, events, j)
  {
    assert Front(events)[..j] == events[..j];
  }

  lemma ResayStep(generated: Generated, events: seq<Event>)
    requires events != []
    ensures NoLateResay(generated, events)
            <==> NoLateResay(generated, Front(events)) && !LateResay(Run(generated, Front(events)), Last(events))
  {
    var n := |events| - 1;
    assert events[..n] == Front(events);
    assert ResaidAt(generated, events, n) <==> LateResay(Run(generated, Front(events)), Last(events));
    forall j | 0 <= j < n { ResaidAtFront(generated, events, j); }
  }

  /** A say gets at most one operator line, if and only if none is said again after its line was dropped. */
  lemma {:induction false} OneOperatorLineIff(generated: Generated, events: seq<Event>)
    ensures SaidAtMostOnce(Run(generated, events).log) <==> NoLateResay(generated, events)
  {
    if events != [] {
      OneOperatorLineIff(generated, Front(events));
      RunBase(generated, Front(events));
      StepSays(generated, Run(generated, Front(events)), Last(events));
      ResayStep(generated, events);
    }
  }

  predicate RevivesAt(generated: Generated, events: seq<Event>, j: nat)
    requires j < |events|
  {
    Revives(Run(generated, events[..j]), events[j])
  }

  ghost predicate RevivesSome(generated: Generated, events: seq<Event>) {
    exists j :: 0 <= j < |events| && RevivesAt(generated, events, j)
  }

  lemma RevivesAtFront(generated: Generated, events: seq<Event>, j: nat)
    requires j < |events| - 1
    ensures RevivesAt(generated, Front(events), j) <==> RevivesAt(generated, events, j)
  {
    assert Front(events)[..j] == events[..j];
  }

  lemma RevivesStep(generated: Generated, events: seq<Event>)
    requires events != []
    ensures RevivesSome(generated, events)
            <==> RevivesSome(generated, Front(events)) || Revives(Run(generated, Front(events)), Last(events))
  {
    var n := |events| - 1;
    assert events[..n] == Front(events);
    assert RevivesAt(generated, events, n) <==> Revives(Run(generated, Front(events)), Last(events));
    forall j | 0 <= j < n { RevivesAtFront(generated, events, j); }
  }

  /** A say gets at most one spirit line, if and only if the Host is given no report again after its line
      has been dropped. */
  lemma {:induction false} OneSpiritLineIff(generated: Generated, events: seq<Event>)
    ensures AnsweredOnce(Run(generated, events).log) <==> !RevivesSome(generated, events)
  {
    if events != [] {
      OneSpiritLineIff(generated, Front(events));
      RunBase(generated, Front(events));
      StepAnswers(generated, Run(generated, Front(events)), Last(events));
      RevivesStep(generated, events);
    }
  }

  // ---------------------------------------------------------------- the empty turn id

  /** `pendingSayId` guards the next poll by its truth value.  Right after an injection, an idle poll of the
      unchanged log injects again if and only if the say's turn id is empty, which the Host refuses. */
  lemma InjectedAgainIffEmpty(s: State)
    requires s.polling.Some? && s.polling.value <= |s.log|
    requires !s.stopped && !s.reporting && s.settled.None? && NextUnanswered(Held(s.log)) < |Held(s.log)|
    ensures var t := SnapshotBack(s, |s.log|, true, true);
            SnapshotBack(Tick(t, true, true), |t.log|, true, true).trace != t.trace
            <==> Held(s.log)[NextUnanswered(Held(s.log))].turnId == ""
  {
    assert s.log[..|s.log|] == s.log;
    var i, t := NextUnanswered(Held(s.log)), SnapshotBack(s, |s.log|, true, true);
    assert t == Inject(s.(polling := None), Start(|s.log|) + i);
    if Held(s.log)[i].turnId == "" {
      var u := Tick(t, true, true);
      assert u.polling == Some(|s.log|) && u.log == s.log;
      assert SnapshotBack(u, |t.log|, true, true) == Inject(u.(polling := None), Start(|s.log|) + i);
    }
  }

  /** The Host holds no operator line with a blank say id, whatever is said. */
  lemma NoneIsBlank(generated: Generated, events: seq<Event>)
    ensures Named(Run(generated, events).log)
  {
    RunBase(generated, events);
  }
}
