/** What `close` reports, over every history. */
module TransportClosing {
  import opened Basics
  import opened TransportTypes
  import opened TransportModel
  import opened TransportRuns
  import opened Framing

  /** What a close waits for is left alone. */
  predicate Same(s: State, t: State) {
    t.closing == s.closing && (s.child ==> t.child && t.childClosed == s.childClosed)
  }

  lemma PoisonSame(s: State, code: Code)
    ensures Same(s, Poison(s, code))
  {
  }

  lemma FlushSame(s: State, w: WriteResult)
    ensures Same(s, Flush(s, w))
  {
    if CanWrite(s) { PoisonSame(Dispatch(s).(writing := false, inFlight := 0), RequestWriteFailed); }
  }

  lemma AcceptSame(s: State, r: RequestArgs)
    requires r.body.Some?
    ensures Same(s, Accept(s, r))
  {
    PoisonSame(Register(s, r), SpawnFailed);
    FlushSame(Admit(s, r), r.write);
  }

  lemma TurnAwaySame(s: State, o: Outcome)
    ensures Same(s, TurnAway(s, o))
  {
  }

  lemma RequestSame(s: State, r: RequestArgs)
    ensures Same(s, Request(s, r))
  {
    if s.failure.Some? {
      TurnAwaySame(s, UnavailableAfterFailure(s, r.definitive));
    } else if Refusal(s, r).Some? {
      TurnAwaySame(s, UnavailableFor(Fresh(r.definitive, false), FailureOf(Refusal(s, r).value)));
    } else {
      AcceptSame(s, r);
    }
  }

  lemma CancelSame(s: State, id: nat, o: Outcome, w: WriteResult)
    ensures Same(s, CancelQueued(s, id, o, w))
  {
    var i := IndexOf(s.queue, id);
    if i < |s.queue| { FlushSame(Withdraw(s, i, o), w); }
  }

  lemma AbortSame(s: State, id: nat, w: WriteResult)
    ensures Same(s, Abort(s, id, w))
  {
    if id in s.pending {
      CancelSame(s, id, UnavailableFor(s.pending[id], FailureOf(RequestCancelled)), w);
      PoisonSame(s, RequestCancelled);
    }
  }

  lemma TimeoutSame(s: State, id: nat, w: WriteResult)
    ensures Same(s, TimedOut(s, id, w))
  {
    if id in s.pending {
      CancelSame(s, id, UnavailableFor(s.pending[id], FailureOf(RequestTimeout)), w);
      PoisonSame(s, RequestTimeout);
    }
  }

  lemma SettleSame(s: State, id: nat, o: Outcome)
    ensures Same(s, Settle(s, id, o))
  {
  }

  lemma AnswerSame(s: State, id: nat, body: Body)
    requires id in s.pending
    ensures Same(s, Answer(s, id, body))
  {
    match body
    case Ambiguous => PoisonSame(s, AmbiguousResponse);
    case BadError => PoisonSame(s, InvalidStructuredError);
    case StructuredError(e, retryable) => SettleSame(s, id, WorkerErrorFor(s.pending[id], e, retryable));
    case Value(v) => SettleSame(s, id, Resolved(v));
  }

  lemma RespondSame(s: State, reply: Reply)
    ensures Same(s, Respond(s, reply))
  {
    if !reply.Envelope? {
      PoisonSame(s, EnvelopeFault(reply));
    } else if reply.id in s.pending {
      AnswerSame(s, reply.id, reply.body);
    } else {
      PoisonSame(s, UnknownResponseId);
    }
  }

  lemma TakeLineSame(parse: Parser, s: State)
    requires NewlineAt(s.buffer) < |s.buffer|
    ensures Same(s, TakeLine(parse, s))
  {
    var i := NewlineAt(s.buffer);
    var rest, reply := s.(buffer := s.buffer[i + 1..]), parse(StripCarriageReturn(s.buffer[..i]));
    PoisonSame(rest, OutputTooLarge);
    RespondSame(if rest.cleaned then rest else Take(rest, s.buffer[..i], reply), reply);
  }

  lemma {:induction false} PumpSame(parse: Parser, s: State)
    ensures Same(s, Pump(parse, s))
    decreases |s.buffer|
  {
    if NewlineAt(s.buffer) < |s.buffer| {
      TakeLineSame(parse, s);
      if !TakeLine(parse, s).cleaned { PumpSame(parse, TakeLine(parse, s)); }
    }
  }

  lemma StdoutSame(parse: Parser, s: State, chunk: Bytes)
    ensures Same(s, Stdout(parse, s, chunk))
  {
    PoisonSame(s, OutputTooLarge);
    PoisonSame(s.(buffer := s.buffer + chunk), OutputTooLarge);
    PumpSame(parse, s.(buffer := s.buffer + chunk));
  }

  lemma ChildErrorSame(s: State)
    ensures Same(s, ChildError(s))
  {
    PoisonSame(if s.childStarted then s else Recalled(s), SpawnFailed);
  }

  lemma PipeSame(s: State, ok: bool, w: WriteResult)
    ensures Same(s, WriteDone(s, ok, w)) && Same(s, Drained(s, w))
  {
    FlushSame(Landed(s, ok), w);
    FlushSame(s.(blocked := false), w);
    PoisonSame(Landed(s, ok), RequestWriteFailed);
  }

  lemma StepSame(parse: Parser, s: State, e: Event)
    requires !e.EvClose? && !e.EvChildClose? && !e.EvShutdownDeadline?
    ensures Same(s, Step(parse, s, e))
  {
    match e
    case EvRequest(r) => RequestSame(s, r);
    case EvWriteDone(ok, w) => PipeSame(s, ok, w);
    case EvDrain(w) => PipeSame(s, true, w);
    case EvStdout(chunk) => StdoutSame(parse, s, chunk);
    case EvAbort(id, w) => AbortSame(s, id, w);
    case EvTimeout(id, w) => TimeoutSame(s, id, w);
    case EvSpawned =>
    case EvChildError => ChildErrorSame(s);
    case EvStdinError => PoisonSame(s, RequestWriteFailed);
    case EvStdoutError => PoisonSame(s, ResponseReadFailed);
  }

  /** What the three events that matter to a close do. */
  lemma StepCloses(parse: Parser, s: State, e: Event)
    ensures var t := Step(parse, s, e);
            && (s.child ==> t.child)
            && t.closing ==
               (if s.closing.NotRequested? && e.EvClose? then
                  if s.child && !s.childClosed then Waiting else ExitConfirmed
                else if s.closing.Waiting? && s.child && e.EvChildClose? then ExitConfirmed
                else if s.closing.Waiting? && e.EvShutdownDeadline? then DeadlineMissed
                else s.closing)
  {
    if e.EvClose? {
      PoisonSame(s, Closed);
      PoisonSame(s.(closing := Waiting), Closed);
    } else if e.EvChildClose? {
      PoisonSame(Gone(s), ChildExited);
    } else if !e.EvShutdownDeadline? {
      StepSame(parse, s, e);
    }
  }

  lemma {:induction false} UnaskedUntilClose(parse: Parser, events: seq<Event>)
    requires forall k :: 0 <= k < |events| ==> !events[k].EvClose?
    ensures Run(parse, events).closing.NotRequested?
  {
    if events != [] {
      UnaskedUntilClose(parse, Front(events));
      StepCloses(parse, Run(parse, Front(events)), Last(events));
    }
  }

  /** Among these events the child's exit comes, and no deadline before it. */
  ghost predicate ExitsInTime(more: seq<Event>) {
    exists k :: 0 <= k < |more| && more[k].EvChildClose? && forall j :: 0 <= j < k ==> !more[j].EvShutdownDeadline?
  }

  ghost predicate MissesDeadline(more: seq<Event>) {
    exists k :: 0 <= k < |more| && more[k].EvShutdownDeadline? && forall j :: 0 <= j < k ==> !more[j].EvChildClose?
  }

  lemma OneMoreEvent(more: seq<Event>)
    requires more != []
    ensures ExitsInTime(more)
            <==> ExitsInTime(Front(more)) || (!MissesDeadline(Front(more)) && Last(more).EvChildClose?)
    ensures MissesDeadline(more)
            <==> MissesDeadline(Front(more)) || (!ExitsInTime(Front(more)) && Last(more).EvShutdownDeadline?)
    ensures !ExitsInTime(more) || !MissesDeadline(more)
  {
    var n := |more| - 1;
    assert forall k :: 0 <= k < n ==> Front(more)[k] == more[k];
    if more[n].EvChildClose? && !MissesDeadline(Front(more)) { FirstOfEach(Front(more)); }
    if more[n].EvShutdownDeadline? && !ExitsInTime(Front(more)) { FirstOfEach(Front(more)); }
  }

  /** One of the two comes first, if any comes. */
  lemma {:induction false} FirstOfEach(more: seq<Event>)
    ensures ExitsInTime(more) || MissesDeadline(more)
            || forall k :: 0 <= k < |more| ==> !more[k].EvChildClose? && !more[k].EvShutdownDeadline?
  {
    if more != [] {
      FirstOfEach(Front(more));
      assert forall k :: 0 <= k < |Front(more)| ==> Front(more)[k] == more[k];
      if ExitsInTime(Front(more)) {
        var k :| 0 <= k < |Front(more)| && Front(more)[k].EvChildClose?
                 && forall j :: 0 <= j < k ==> !Front(more)[j].EvShutdownDeadline?;
        assert more[k].EvChildClose?;
      } else if MissesDeadline(Front(more)) {
        var k :| 0 <= k < |Front(more)| && Front(more)[k].EvShutdownDeadline?
                 && forall j :: 0 <= j < k ==> !Front(more)[j].EvChildClose?;
        assert more[k].EvShutdownDeadline?;
      } else {
        assert more[|more| - 1] == Last(more);
      }
    }
  }

  /** The close of a running child, these events later. */
  ghost predicate EndsAs(t: State, more: seq<Event>) {
    && t.child && !t.closing.NotRequested?
    && (t.closing.ExitConfirmed? <==> ExitsInTime(more))
    && (t.closing.DeadlineMissed? <==> MissesDeadline(more))
  }

  lemma OneMoreEnds(parse: Parser, t: State, more: seq<Event>)
    requires more != [] && EndsAs(t, Front(more))
    ensures EndsAs(Step(parse, t, Last(more)), more)
  {
    StepCloses(parse, t, Last(more));
    OneMoreEvent(more);
  }

  /** Whatever happened before the first close and happens after it: with no child running it ends at once;
      otherwise it ends well exactly when the child exits before the deadline, fails exactly when the deadline
      comes first, and waits until one of them comes. */
  lemma {:induction false} CloseEndsAs(parse: Parser, events: seq<Event>, more: seq<Event>)
    requires forall k :: 0 <= k < |events| ==> !events[k].EvClose?
    ensures var s, t := Run(parse, events), Run(parse, events + [EvClose] + more);
            if s.child && !s.childClosed then EndsAs(t, more) else t.closing.ExitConfirmed?
    decreases |more|
  {
    if more == [] {
      UnaskedUntilClose(parse, events);
      RunAppend(parse, events, EvClose);
      StepCloses(parse, Run(parse, events), EvClose);
      assert events + [EvClose] + more == events + [EvClose];
    } else {
      var before, t := Front(more), Run(parse, events + [EvClose] + Front(more));
      CloseEndsAs(parse, events, before);
      assert events + [EvClose] + more == (events + [EvClose] + before) + [Last(more)];
      RunAppend(parse, events + [EvClose] + before, Last(more));
      StepCloses(parse, t, Last(more));
      if EndsAs(t, before) { OneMoreEnds(parse, t, more); }
    }
  }
}
