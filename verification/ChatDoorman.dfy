/** The chat doorman object of one session.  The lines the Host took, the reports it processed and
    everything transmitted are ghost: they say what the messages the doorman gets can be. */
module ChatDoormanClass {
  import opened Basics
  import opened ChatAnswer
  import opened ChatModel
  import opened ChatTheorems

  class ChatDoorman {
    const generated: Generated
    var pendingSayId: Option<string>
    var draftSteps: Option<seq<string>>
    var settledReport: Option<Report>
    var ticking: bool
    var reporting: bool
    var stopped: bool
    /** How many lines the Host had taken when the pending snapshot was asked for. */
    ghost var askedAt: nat
    ghost var log: seq<Line>
    ghost var processed: set<string>
    ghost var sent: seq<Report>
    ghost var trace: seq<Entry>

    ghost function Snapshot(): State
      reads this
    {
      State(pendingSayId, draftSteps, settledReport, if ticking then Some(askedAt) else None, reporting, stopped,
            log, processed, sent, trace)
    }

    ghost predicate Valid()
      reads this
    {
      Base(Snapshot())
    }

    constructor (generated: Generated)
      ensures Valid() && Snapshot() == INITIAL && this.generated == generated
    {
      this.generated := generated;
      pendingSayId, draftSteps, settledReport, ticking, reporting, stopped := None, None, None, false, false, false;
      askedAt, log, processed, sent, trace := 0, [], {}, [], [];
      new;
      RunBase(generated, []);
    }

    method TickChatDoorman(top: bool, idle: bool)
      requires Valid()
      modifies this
      ensures Valid() && Snapshot() == Tick(old(Snapshot()), top, idle)
    {
      TickBase(Snapshot(), top, idle);
      if stopped || ticking || reporting {
        return;
      }
      if !top {
        return;
      }
      if settledReport.Some? {
        DeliverChatReport(top);
        return;
      }
      if pendingSayId.Some? && pendingSayId.value != "" {
        return;
      }
      if !idle {
        return;
      }
      ticking := true;
      askedAt := |log|;
    }

    /** The rest of the tick, once the Host has answered with what it held of its first n lines. */
    method OnSnapshot(lines: seq<Line>, ghost n: nat, top: bool, idle: bool)
      requires Valid() && ticking && askedAt <= n <= |log| && lines == Held(log[..n])
      modifies this
      ensures Valid() && Snapshot() == SnapshotBack(old(Snapshot()), n, top, idle)
    {
      SnapshotBase(Snapshot(), n, top, idle);
      TakeLines(lines, n, top, idle);
    }

    method TakeLines(lines: seq<Line>, ghost n: nat, top: bool, idle: bool)
      requires ticking && askedAt <= n <= |log| && lines == Held(log[..n])
      modifies this
      ensures Snapshot() == SnapshotBack(old(Snapshot()), n, top, idle)
    {
      StopTicking();
      if stopped || !top || !idle {
        return;
      }
      var next := NextUnanswered(lines);
      if next == |lines| {
        return;
      }
      InjectSay(lines[next].turnId, Start(n) + next);
    }

    method StopTicking()
      modifies `ticking
      ensures Snapshot() == old(Snapshot()).(polling := None)
    {
      ticking := false;
    }

    /** Hands the say to the session as its next turn. */
    method InjectSay(turnId: string, ghost at: nat)
      requires at < |log| && turnId == log[at].turnId
      modifies `pendingSayId, `draftSteps, `trace
      ensures Snapshot() == Inject(old(Snapshot()), at)
    {
      pendingSayId := Some(turnId);
      draftSteps := Some([]);
      trace := trace + [Injected(turnId, at)];
    }

    method OnSnapshotLost()
      requires Valid()
      modifies `ticking
      ensures Valid() && Snapshot() == SnapshotLost(old(Snapshot()))
    {
      ticking := false;
    }

    method NoteChatTurnEnd(messages: seq<Message>, top: bool)
      requires Valid()
      modifies this
      ensures Valid() && Snapshot() == TurnEnd(old(Snapshot()), generated, messages, top)
    {
      TurnEndBase(Snapshot(), generated, messages, top);
      if stopped || pendingSayId.None? || pendingSayId.value == "" || settledReport.Some? || !top {
        return;
      }
      var sayId := pendingSayId.value;
      var answer := FindAnswer(messages, sayId);
      if answer.None? {
        return;
      }
      SettleReport(Report(Key(sayId), sayId, answer.value, if draftSteps.Some? then draftSteps.value else []));
      DeliverChatReport(top);
    }

    method SettleReport(report: Report)
      modifies `settledReport
      ensures Snapshot() == old(Snapshot()).(settled := Some(report))
    {
      settledReport := Some(report);
    }

    /** The answer to a say, if the conversation has it. */
    method FindAnswer(messages: seq<Message>, sayId: string) returns (answer: Option<Answer>)
      ensures answer == Capture(generated, messages, sayId)
    {
      var originIndex := LastOrigin(messages, sayId);
      if originIndex < 0 {
        return None;
      }
      var afterOrigin := messages[originIndex + 1..];
      var ownedMessages := afterOrigin[..OwnedLength(generated, afterOrigin)];
      var assistantIndex := FirstSettled(ownedMessages);
      if assistantIndex == |ownedMessages| {
        return None;
      }
      var assistant := ownedMessages[assistantIndex];
      var thinking := Thinking(ownedMessages[..assistantIndex + 1]);
      return Some(Answer(assistant.text, thinking, OutcomeOf(assistant)));
    }

    method Thinking(messages: seq<Message>) returns (thinking: seq<string>)
      ensures thinking == AllThoughts(messages)
    {
      thinking := [];
      var i := 0;
      while i < |messages|
        invariant i <= |messages| && thinking == AllThoughts(messages[..i])
      {
        assert messages[..i + 1] == messages[..i] + [messages[i]];
        Snoc(messages[..i], messages[i]);
        thinking := thinking + Thoughts(messages[i]);
        i := i + 1;
      }
      assert messages[..i] == messages;
    }

    method DeliverChatReport(top: bool)
      modifies `reporting, `sent, `trace
      ensures Snapshot() == Deliver(old(Snapshot()), top)
    {
      if settledReport.None? || stopped || reporting || !top {
        return;
      }
      reporting := true;
      sent, trace := sent + [settledReport.value], trace + [Transmitted(settledReport.value)];
    }

    /** The Host acknowledges only a report it has. */
    method OnReportAcked()
      requires Valid() && reporting && settledReport.value.key in processed
      modifies this
      ensures Valid() && Snapshot() == ReportAcked(old(Snapshot()))
    {
      AckedBase(Snapshot());
      trace := trace + [Acknowledged(settledReport.value.turnId)];
      pendingSayId, draftSteps, settledReport := None, None, None;
      reporting := false;
    }

    method OnReportFailed()
      requires Valid() && reporting
      modifies `reporting
      ensures Valid() && Snapshot() == ReportFailed(old(Snapshot()))
    {
      reporting := false;
    }

    method StopChatDoorman()
      requires Valid()
      modifies `stopped
      ensures Valid() && Snapshot() == Stopping(old(Snapshot()))
    {
      stopped := true;
    }
  }
}
