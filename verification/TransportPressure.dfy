/** One write at a time, and none into a full pipe: from the events of a history alone. */
module TransportPressure {
  import opened Basics
  import opened TransportTypes
  import opened TransportLog
  import opened TransportModel
  import opened TransportInvariant
  import opened TransportChunking
  import opened TransportRuns
  import opened TransportTheorems
  import Framing

  /** How stdin takes a body the event hands over. */
  function Takes(e: Event): WriteResult {
    match e
    case EvRequest(r) => r.write
    case EvWriteDone(_, w) => w
    case EvDrain(w) => w
    case EvAbort(_, w) => w
    case EvTimeout(_, w) => w
    case _ => Taken
  }

  /** The event after the history hands a body over. */
  ghost predicate HandsOver(parse: Parser, events: seq<Event>, e: Event) {
    exists id :: WrittenIn(Run(parse, events + [e]).trace, id) && !WrittenIn(Run(parse, events).trace, id)
  }

  /** The last body handed over filled the pipe, and it has not drained since. */
  ghost predicate Full(parse: Parser, events: seq<Event>) {
    events != []
    && var before, e := Front(events), Last(events);
       if HandsOver(parse, before, e) then Takes(e).Full? else Full(parse, before) && !e.EvDrain?
  }

  /** The callback of the last body handed over has not come yet. */
  ghost predicate Busy(parse: Parser, events: seq<Event>) {
    events != []
    && var before, e := Front(events), Last(events);
       HandsOver(parse, before, e) || (Busy(parse, before) && !e.EvWriteDone?)
  }

  // ---------------------------------------------------------------- one event

  function Bodies(s: State): set<nat> {
    s.audit.written.Keys
  }

  /** Nothing is handed over, and what is known of the pipe stays. */
  predicate Still(s: State, t: State) {
    && Bodies(t) == Bodies(s)
    && (!t.cleaned ==> !s.cleaned && t.blocked == s.blocked && t.writing == s.writing && (s.child ==> t.child))
  }

  /** A free pipe takes one body. */
  predicate Moves(s: State, t: State, w: WriteResult) {
    && Bodies(t) != Bodies(s) && !s.blocked && !s.writing
    && (!t.cleaned ==> t.writing && t.blocked == w.Full? && t.child)
  }

  predicate Follows(s: State, t: State, w: WriteResult) {
    Still(s, t) || Moves(s, t, w)
  }

  lemma FlushFollows(s: State, w: WriteResult)
    requires Ahead(s.audit.written, s.queue)
    ensures Follows(s, Flush(s, w), w)
  {
    if CanWrite(s) {
      assert s.queue[0].id in QueueIds(s.queue);
      assert s.queue[0].id in Bodies(Dispatch(s)) && s.queue[0].id !in Bodies(s);
    }
  }

  /** What happens before a flush in the same event. */
  lemma StillFollows(s: State, u: State, t: State, w: WriteResult)
    requires Still(s, u) && !u.cleaned && Follows(u, t, w)
    ensures Follows(s, t, w)
  {
  }

  lemma PoisonStill(s: State, code: Code)
    ensures Still(s, Poison(s, code))
  {
  }

  lemma AdmitStill(s: State, r: RequestArgs)
    requires r.body.Some?
    ensures Still(s, Admit(s, r)) && Still(s, Poison(Register(s, r), SpawnFailed))
  {
  }

  lemma AdmitAheadOnly(s: State, r: RequestArgs)
    requires Books(s) && Queues(s) && !s.cleaned && Refusal(s, r).None?
    ensures Ahead(Admit(s, r).audit.written, Admit(s, r).queue)
  {
    AdmitQueues(s, r);
  }

  lemma AcceptFollows(s: State, r: RequestArgs)
    requires Books(s) && Queues(s) && !s.cleaned && Refusal(s, r).None?
    ensures Follows(s, Accept(s, r), r.write)
  {
    AdmitStill(s, r);
    AdmitAheadOnly(s, r);
    FlushFollows(Admit(s, r), r.write);
    if s.child || r.spawns { StillFollows(s, Admit(s, r), Accept(s, r), r.write); }
  }

  lemma RequestFollows(s: State, r: RequestArgs)
    requires Inv(s)
    ensures Follows(s, Request(s, r), r.write)
  {
    if r.methodGiven && s.failure.None? && Refusal(s, r).None? { AcceptFollows(s, r); }
  }

  lemma SettleStill(s: State, id: nat, o: Outcome)
    ensures Still(s, Settle(s, id, o))
  {
  }

  lemma CancelFollows(s: State, id: nat, failure: Failure, w: WriteResult)
    requires Inv(s) && !s.cleaned && id in s.pending && !s.pending[id].dispatched
    ensures Follows(s, CancelQueued(s, id, UnavailableFor(s.pending[id], failure), w), w)
  {
    var i, o := IndexOf(s.queue, id), UnavailableFor(s.pending[id], failure);
    CancelCases(s, id, o, w);
    if i < |s.queue| {
      WithdrawKeeps(s, i, failure);
      FlushFollows(Withdraw(s, i, o), w);
      SettleStill(Unqueue(s, i), s.queue[i].id, o);
      StillFollows(s, Withdraw(s, i, o), Flush(Withdraw(s, i, o), w), w);
    }
  }

  lemma AbandonStill(s: State, id: nat, failure: Failure)
    ensures Still(s, Abandon(s, id, failure))
  {
    if id in s.pending {
      SettleStill(s.(abandoned := Remember(s.abandoned, id)), id, UnavailableFor(s.pending[id], failure));
    }
  }

  lemma AbortFollows(s: State, id: nat, w: WriteResult)
    requires Inv(s)
    ensures Follows(s, Abort(s, id, w), w)
  {
    var failure := FailureOf(RequestCancelled);
    if id in s.pending {
      if !s.pending[id].dispatched {
        CancelFollows(s, id, failure, w);
      } else {
        AbandonStill(s, id, failure);
        PoisonStill(s, RequestCancelled);
      }
    }
  }

  lemma TimeoutFollows(s: State, id: nat, w: WriteResult)
    requires Inv(s)
    ensures Follows(s, TimedOut(s, id, w), w)
  {
    if id in s.pending {
      if !s.pending[id].dispatched {
        CancelFollows(s, id, FailureOf(RequestTimeout), w);
      } else {
        PoisonStill(s, RequestTimeout);
      }
    }
  }

  lemma AnswerStill(s: State, id: nat, body: Body)
    requires id in s.pending
    ensures Still(s, Answer(s, id, body))
  {
    match body
    case Ambiguous => PoisonStill(s, AmbiguousResponse);
    case BadError => PoisonStill(s, InvalidStructuredError);
    case StructuredError(e, retryable) => SettleStill(s, id, WorkerErrorFor(s.pending[id], e, retryable));
    case Value(v) => SettleStill(s, id, Resolved(v));
  }

  lemma RespondStill(s: State, reply: Reply)
    ensures Still(s, Respond(s, reply))
  {
    if !reply.Envelope? {
      PoisonStill(s, EnvelopeFault(reply));
    } else if reply.id in s.pending {
      AnswerStill(s, reply.id, reply.body);
    } else {
      PoisonStill(s, UnknownResponseId);
    }
  }

  lemma LineStill(parse: Parser, s: State, line: Bytes)
    ensures Still(s, DeliverLine(parse, s, line))
  {
    if |line| <= MAX_STDOUT_LINE_BYTES {
      var reply := parse(StripCarriageReturn(line));
      RespondStill(if s.cleaned then s else Take(s, line, reply), reply);
    }
  }

  lemma {:induction false} DeliverStill(parse: Parser, s: State, lines: seq<Bytes>, rest: Bytes)
    ensures Still(s, Deliver(parse, s, lines, rest))
    decreases |lines|
  {
    if !s.cleaned && lines != [] {
      LineStill(parse, s, lines[0]);
      DeliverStill(parse, DeliverLine(parse, s, lines[0]), lines[1..], rest);
    }
  }

  lemma StdoutStill(parse: Parser, s: State, chunk: Bytes)
    requires Inv(s)
    ensures Still(s, Stdout(parse, s, chunk))
  {
    var t := Stdout(parse, s, chunk);
    assert Still(Bare(s), Bare(t)) ==> Still(s, t);
    if s.cleaned {
      StdoutInert(parse, s, chunk);
    } else {
      StdoutDelivers(parse, s, chunk);
      DeliverStill(parse, Bare(s), Framing.Lines(s.buffer + chunk), Framing.Rest(s.buffer + chunk));
    }
  }

  lemma ChildStill(s: State)
    ensures Still(s, Spawned(s)) && Still(s, ChildError(s)) && Still(s, ChildClose(s))
  {
    PoisonStill(if s.childStarted then s else Recalled(s), SpawnFailed);
    PoisonStill(Gone(s), ChildExited);
  }

  lemma CloseStill(s: State)
    ensures Still(s, Close(s))
  {
    if s.closing.NotRequested? {
      if !s.child || s.childClosed { PoisonStill(s, Closed); } else { PoisonStill(s.(closing := Waiting), Closed); }
    }
  }

  lemma DeadlineStill(s: State)
    ensures Still(s, ShutdownDeadline(s))
  {
  }

  /** The pipe as the event leaves it before anything more is handed over. */
  function Freed(s: State, e: Event): State {
    match e
    case EvWriteDone(ok, _) => if s.inFlight != 0 && ok then Landed(s, true) else s
    case EvDrain(_) => if s.child then s.(blocked := false) else s
    case _ => s
  }

  lemma PipeFollows(parse: Parser, s: State, e: Event)
    requires Inv(s) && FromPipes(e) && (e.EvWriteDone? ==> e.ok)
    ensures Follows(Freed(s, e), Step(parse, s, e), Takes(e))
  {
    match e
    case EvWriteDone(ok, w) =>
      LandedKeeps(s, true);
      FlushFollows(Landed(s, true), w);
    case EvDrain(w) => FlushFollows(s.(blocked := false), w);
    case EvStdout(chunk) => StdoutStill(parse, s, chunk);
    case EvStdinError => PoisonStill(s, RequestWriteFailed);
    case EvStdoutError => PoisonStill(s, ResponseReadFailed);
  }

  lemma CallerFollows(parse: Parser, s: State, e: Event)
    requires Inv(s) && !FromPipes(e)
    ensures Follows(s, Step(parse, s, e), Takes(e))
  {
    match e
    case EvRequest(r) => RequestFollows(s, r);
    case EvAbort(id, w) => AbortFollows(s, id, w);
    case EvTimeout(id, w) => TimeoutFollows(s, id, w);
    case _ =>
      ChildStill(s);
      CloseStill(s);
      DeadlineStill(s);
  }

  /** What one event does to the pipe. */
  predicate Turns(s: State, t: State, e: Event) {
    && (!t.cleaned && t.blocked ==> t.child)
    && if Bodies(t) == Bodies(s) then
         !t.cleaned ==>
           !s.cleaned && t.blocked == (s.blocked && !e.EvDrain?) && t.writing == (s.writing && !e.EvWriteDone?)
       else
         && (s.blocked ==> e.EvDrain?) && (s.writing ==> e.EvWriteDone?)
         && (!t.cleaned ==> t.writing && t.blocked == Takes(e).Full?)
  }

  lemma FailedWriteTurns(parse: Parser, s: State, w: WriteResult)
    requires Inv(s) && (!s.cleaned && s.blocked ==> s.child)
    ensures Turns(s, Step(parse, s, EvWriteDone(false, w)), EvWriteDone(false, w))
  {
    PoisonStill(Landed(s, false), RequestWriteFailed);
  }

  lemma StepTurns(parse: Parser, s: State, e: Event)
    requires Inv(s) && (!s.cleaned && s.blocked ==> s.child)
    ensures Turns(s, Step(parse, s, e), e)
  {
    if e.EvWriteDone? && !e.ok {
      FailedWriteTurns(parse, s, e.w);
    } else if FromPipes(e) {
      PipeFollows(parse, s, e);
    } else {
      CallerFollows(parse, s, e);
    }
  }

  // ---------------------------------------------------------------- histories

  lemma HandsOverAudited(parse: Parser, events: seq<Event>, e: Event)
    ensures var s, t := Run(parse, events), Run(parse, events + [e]);
            Bodies(s) <= Bodies(t) && (HandsOver(parse, events, e) <==> Bodies(t) != Bodies(s))
  {
    var s, t := Run(parse, events), Run(parse, events + [e]);
    RunIsFramed(parse, events);
    RunIsFramed(parse, events + [e]);
    OneMoreGrows(parse, events, e);
    forall id: nat
      ensures (id in Bodies(s) <==> WrittenIn(s.trace, id)) && (id in Bodies(t) <==> WrittenIn(t.trace, id)) {
      AuditKnows(s.trace, id);
      AuditKnows(t.trace, id);
    }
    forall id | id in Bodies(s) ensures id in Bodies(t) {
      var k :| 0 <= k < |s.trace| && s.trace[k] == Wrote(id);
      assert t.trace[k] == Wrote(id);
    }
    if Bodies(t) != Bodies(s) {
      var id :| id in Bodies(t) && id !in Bodies(s);
    }
  }

  lemma EventTurns(parse: Parser, events: seq<Event>, e: Event)
    requires !Run(parse, events).cleaned && Run(parse, events).blocked ==> Run(parse, events).child
    ensures Turns(Run(parse, events), Run(parse, events + [e]), e)
    ensures HandsOver(parse, events, e) <==> Bodies(Run(parse, events + [e])) != Bodies(Run(parse, events))
  {
    RunKeeps(parse, events);
    RunAppend(parse, events, e);
    StepTurns(parse, Run(parse, events), e);
    HandsOverAudited(parse, events, e);
  }

  /** Over every history, while the transport is usable: it takes the pipe for full exactly while the last body
      handed over filled it and it has not drained, and for busy exactly until that body's callback. */
  lemma {:induction false} PipeIsKnown(parse: Parser, events: seq<Event>)
    ensures var s := Run(parse, events);
            !s.cleaned ==> (s.blocked <==> Full(parse, events)) && (s.writing <==> Busy(parse, events))
    ensures var s := Run(parse, events); !s.cleaned && s.blocked ==> s.child
  {
    if events != [] {
      PipeIsKnown(parse, Front(events));
      EventTurns(parse, Front(events), Last(events));
      assert events == Front(events) + [Last(events)];
    }
  }

  lemma HeldBackOnlyFor(parse: Parser, events: seq<Event>)
    ensures var s := Run(parse, events); s.failure.None? && s.queue != [] ==> !s.cleaned && (s.writing || s.blocked)
  {
    RunKeeps(parse, events);
  }

  lemma CleanedHandsNothing(parse: Parser, s: State, e: Event)
    requires Inv(s) && s.cleaned
    ensures Bodies(Step(parse, s, e)) == Bodies(s)
  {
    PoisonedStays(parse, s, e);
  }

  /** Over every history a body is handed over only when the one before it has been taken, its callback come,
      and never into a full pipe before it drains; and with bodies waiting a usable transport holds them back
      for no other reason. */
  lemma NothingIntoAFullPipe(parse: Parser, events: seq<Event>, e: Event)
    ensures HandsOver(parse, events, e)
            ==> (Full(parse, events) ==> e.EvDrain?) && (Busy(parse, events) ==> e.EvWriteDone?)
    ensures var s := Run(parse, events);
            s.failure.None? && s.queue != [] ==> Full(parse, events) || Busy(parse, events)
  {
    PipeIsKnown(parse, events);
    HeldBackOnlyFor(parse, events);
    EventTurns(parse, events, e);
    if Run(parse, events).cleaned {
      RunKeeps(parse, events);
      RunAppend(parse, events, e);
      CleanedHandsNothing(parse, Run(parse, events), e);
    }
  }
}
