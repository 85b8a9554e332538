/** What becomes of a call: refused exactly for these reasons, or entered as it was made; and of which bodies
    the transport still awaits the write. */
module TransportCalls {
  import opened Basics
  import opened TransportTypes
  import opened TransportLog
  import opened TransportModel
  import opened TransportInvariant
  import opened TransportChunking
  import opened TransportRuns
  import opened TransportTheorems
  import opened TransportCauses
  import Framing

  // ---------------------------------------------------------------- refused

  /** What speaks against a call: its timeout, its signal, its body, or too much waiting already. */
  predicate Complains(s: State, r: RequestArgs, code: Code) {
    match code
    case InvalidTimeout => r.timeout.NotWhole? || (r.timeout.Millis? && !(0 <= r.timeout.ms <= 2_147_483_647))
    case RequestCancelled => r.signal.AlreadyAborted?
    case PendingLimit => |s.pending| >= 1024
    case EncodeFailed => r.body.None?
    case RequestTooLarge => r.body.Some? && r.body.value > 4_194_304
    case WriteQueueLimit => r.body.Some? && QueueBytes(s.queue) + r.body.value > 4_194_304
    case _ => false
  }

  /** The order in which the reasons are looked at. */
  const REASONS := [InvalidTimeout, RequestCancelled, PendingLimit, EncodeFailed, RequestTooLarge, WriteQueueLimit]

  lemma RefusedFirst(s: State, r: RequestArgs, i: nat)
    requires s.queuedBytes == QueueBytes(s.queue) && i < |REASONS|
    ensures Refusal(s, r) == Some(REASONS[i])
            <==> Complains(s, r, REASONS[i]) && forall j :: 0 <= j < i ==> !Complains(s, r, REASONS[j])
    ensures Refusal(s, r).None? ==> !Complains(s, r, REASONS[i])
  {
    assert REASONS[0] == InvalidTimeout && REASONS[1] == RequestCancelled && REASONS[2] == PendingLimit;
    assert REASONS[3] == EncodeFailed && REASONS[4] == RequestTooLarge && REASONS[5] == WriteQueueLimit;
  }

  lemma RefusedForSome(s: State, r: RequestArgs)
    requires Refusal(s, r).Some?
    ensures exists i: nat :: i < |REASONS| && Refusal(s, r) == Some(REASONS[i])
  {
    assert REASONS[0] == InvalidTimeout && REASONS[1] == RequestCancelled && REASONS[2] == PendingLimit;
    assert REASONS[3] == EncodeFailed && REASONS[4] == RequestTooLarge && REASONS[5] == WriteQueueLimit;
  }

  /** The call is told the first reason that speaks against it, and nothing else happens. */
  ghost predicate TurnedAway(s: State, r: RequestArgs, t: State) {
    exists i: nat :: i < |REASONS| && FirstReason(s, r, i) && TurnedAwayFor(s, t, REASONS[i])
  }

  ghost predicate FirstReason(s: State, r: RequestArgs, i: nat)
    requires i < |REASONS|
  {
    Complains(s, r, REASONS[i]) && forall j :: 0 <= j < i ==> !Complains(s, r, REASONS[j])
  }

  predicate TurnedAwayFor(s: State, t: State, code: Code) {
    && |t.trace| == |s.trace| + 1 && t.trace[..|s.trace|] == s.trace
    && var e := t.trace[|s.trace|];
       e.Settled? && e.id == s.nextId && e.outcome.Unavailable? && e.outcome.code == code
  }

  /** The call is accepted first of all, under the next id and as definitive as it was made. */
  predicate TakenIn(s: State, r: RequestArgs, t: State) {
    && |s.trace| < |t.trace| && t.trace[..|s.trace|] == s.trace
    && t.trace[|s.trace|] == Accepted(s.nextId, r.definitive)
  }

  ghost predicate SomeComplaint(s: State, r: RequestArgs) {
    exists i: nat :: i < |REASONS| && Complains(s, r, REASONS[i])
  }

  /** On a usable transport a call is turned away exactly when something speaks against it. */
  lemma CallIsTakenIff(parse: Parser, events: seq<Event>, r: RequestArgs)
    requires Run(parse, events).failure.None? && r.methodGiven
    ensures var s, t := Run(parse, events), Run(parse, events + [EvRequest(r)]);
            if SomeComplaint(s, r) then TurnedAway(s, r, t) else TakenIn(s, r, t)
  {
    var s := Run(parse, events);
    RunAppend(parse, events, EvRequest(r));
    QueueDiscipline(parse, events);
    forall i: nat | i < |REASONS| { RefusedFirst(s, r, i); }
    if Refusal(s, r).Some? {
      RefusedForSome(s, r);
      Refused(s, r);
      var i: nat :| i < |REASONS| && Refusal(s, r) == Some(REASONS[i]);
      assert FirstReason(s, r, i) && TurnedAwayFor(s, Request(s, r), REASONS[i]);
    } else {
      EnteredNow(s, r);
    }
  }

  lemma EnteredNow(s: State, r: RequestArgs)
    requires s.failure.None? && r.methodGiven && Refusal(s, r).None?
    ensures TakenIn(s, r, Request(s, r))
  {
    var t := Accept(s, r);
    RequestAccepts(s, r);
    AcceptGrows(s, r);
    TakenFirst(s, r, Register(s, r), t);
  }

  lemma AcceptGrows(s: State, r: RequestArgs)
    requires r.body.Some?
    ensures Register(s, r).trace <= Accept(s, r).trace
  {
    QuietInvalidate(Register(s, r), FailureOf(SpawnFailed));
    QuietFlush(Admit(s, r), r.write);
  }

  lemma TakenFirst(s: State, r: RequestArgs, u: State, t: State)
    requires u.trace == s.trace + [Accepted(s.nextId, r.definitive)] && u.trace <= t.trace
    ensures TakenIn(s, r, t)
  {
    assert t.trace[..|u.trace|] == u.trace;
    assert u.trace[..|s.trace|] == s.trace;
  }

  /** A call the transport takes, and stays usable. */
  predicate Taken(s: State, r: RequestArgs, t: State) {
    s.failure.None? && r.methodGiven && Refusal(s, r).None? && !t.cleaned
  }

  /** The request waits under its own signal; its body is handed over at once, or queued last with its own
      length behind a write or a full pipe. */
  predicate QueuesUp(s: State, r: RequestArgs, t: State) {
    && r.body.Some? && t.child && s.nextId in t.pending && t.nextId == s.nextId + 1
    && var p := t.pending[s.nextId];
       && (p.signal <==> r.signal.LiveSignal?) && (p.definitive <==> r.definitive) && !p.writeCompleted
       && if p.dispatched then t.queue == s.queue == [] && t.inFlight == s.nextId
          else t.queue == s.queue + [QueuedWrite(s.nextId, r.body.value)] && (s.writing || s.blocked)
  }

  /** What a call accepted on a transport that stays usable leaves there. */
  lemma CallEnters(parse: Parser, events: seq<Event>, r: RequestArgs)
    requires Taken(Run(parse, events), r, Run(parse, events + [EvRequest(r)]))
    ensures QueuesUp(Run(parse, events), r, Run(parse, events + [EvRequest(r)]))
  {
    var s := Run(parse, events);
    RunAppend(parse, events, EvRequest(r));
    RunKeeps(parse, events);
    RequestAccepts(s, r);
    AdmittedWaits(s, r);
  }

  lemma AdmittedWaits(s: State, r: RequestArgs)
    requires Inv(s) && !s.cleaned && r.body.Some? && !Accept(s, r).cleaned
    ensures QueuesUp(s, r, Accept(s, r))
  {
    var u := Admit(s, r);
    assert Accept(s, r) == Flush(u, r.write);
    assert s.queue != [] ==> s.writing || s.blocked;
    if CanWrite(u) { AloneWaits(s, r); }
  }

  lemma AloneWaits(s: State, r: RequestArgs)
    requires s.queue == [] && r.body.Some? && CanWrite(Admit(s, r)) && !Flush(Admit(s, r), r.write).cleaned
    ensures QueuesUp(s, r, Flush(Admit(s, r), r.write))
  {
    var u := Admit(s, r);
    assert u.queue == [QueuedWrite(s.nextId, r.body.value)] && u.queue[1..] == [];
    HandedOver(s, r, Dispatch(u));
    assert Flush(u, r.write) == Dispatch(u) || Flush(u, r.write) == Dispatch(u).(blocked := true);
  }

  lemma HandedOver(s: State, r: RequestArgs, d: State)
    requires s.queue == [] && r.body.Some? && d.child && d.nextId == s.nextId + 1 && d.queue == []
    requires d.inFlight == s.nextId
    requires d.pending == MarkDispatched(s.pending[s.nextId := Fresh(r.definitive, r.signal.LiveSignal?)], s.nextId)
    ensures QueuesUp(s, r, d) && QueuesUp(s, r, d.(blocked := true))
  {
  }

  // ---------------------------------------------------------------- writes awaited

  /** Of the bodies dispatched exactly the one in flight awaits its write. */
  ghost predicate Awaits(s: State) {
    !s.cleaned ==> forall id | id in s.pending ::
      s.pending[id].writeCompleted <==> s.pending[id].dispatched && id != s.inFlight
  }

  lemma FlushAwaits(s: State, w: WriteResult)
    requires Awaits(s) && (!s.cleaned ==> Queues(s)) && (CanWrite(s) ==> s.inFlight == 0)
    requires forall id | id in s.pending && id in QueueIds(s.queue) :: !s.pending[id].dispatched
    requires 0 !in s.pending
    ensures Awaits(Flush(s, w))
  {
    if CanWrite(s) { QueueIdsAt(s.queue, 0); }
  }

  lemma UsableFlushAwaits(s: State, w: WriteResult)
    requires Awaits(s) && Books(s) && Queues(s)
    ensures Awaits(Flush(s, w))
  {
    FlushAwaits(s, w);
  }

  lemma LandedAwaits(s: State)
    requires Inv(s) && Awaits(s) && s.inFlight != 0
    ensures Awaits(Landed(s, true))
  {
    if !s.cleaned && s.inFlight in s.pending { AwaitedIsDispatched(s); }
  }

  lemma AwaitedIsDispatched(s: State)
    requires Inv(s) && !s.cleaned && s.inFlight in s.pending
    ensures s.pending[s.inFlight].dispatched
  {
    assert s.inFlight in s.audit.written;
  }

  lemma AcceptAwaits(s: State, r: RequestArgs)
    requires Inv(s) && Awaits(s) && !s.cleaned && Refusal(s, r).None?
    ensures Awaits(Accept(s, r))
  {
    if s.child || r.spawns {
      AdmitBooks(s, r);
      AdmitQueues(s, r);
      RegisterAwaits(s, r);
      UsableFlushAwaits(Admit(s, r), r.write);
    }
  }

  lemma RegisterAwaits(s: State, r: RequestArgs)
    requires Inv(s) && Awaits(s) && !s.cleaned && r.body.Some?
    ensures Awaits(Admit(s, r))
  {
    assert s.nextId !in s.pending;
  }

  lemma RequestAwaits(s: State, r: RequestArgs)
    requires Inv(s) && Awaits(s)
    ensures Awaits(Request(s, r))
  {
    if r.methodGiven && s.failure.None? && Refusal(s, r).None? { AcceptAwaits(s, r); }
  }

  lemma CancelAwaits(s: State, id: nat, failure: Failure, w: WriteResult)
    requires Inv(s) && Awaits(s) && id in s.pending && !s.pending[id].dispatched
    ensures Awaits(CancelQueued(s, id, UnavailableFor(s.pending[id], failure), w))
  {
    var i, o := IndexOf(s.queue, id), UnavailableFor(s.pending[id], failure);
    CancelCases(s, id, o, w);
    if i < |s.queue| {
      WithdrawKeeps(s, i, failure);
      UsableFlushAwaits(Withdraw(s, i, o), w);
    }
  }

  lemma AbortAwaits(s: State, id: nat, w: WriteResult)
    requires Inv(s) && Awaits(s)
    ensures Awaits(Abort(s, id, w)) && Awaits(TimedOut(s, id, w))
  {
    if id in s.pending && !s.pending[id].dispatched {
      CancelAwaits(s, id, FailureOf(RequestCancelled), w);
      CancelAwaits(s, id, FailureOf(RequestTimeout), w);
    }
  }

  /** At most some promises have ended. */
  ghost predicate Fewer(s: State, t: State) {
    t.cleaned
    || (&& !s.cleaned && t.inFlight == s.inFlight
        && forall id | id in t.pending :: id in s.pending && t.pending[id] == s.pending[id])
  }

  lemma FewerAwaits(s: State, t: State)
    requires Awaits(s) && Fewer(s, t)
    ensures Awaits(t)
  {
  }

  lemma RespondFewer(s: State, reply: Reply)
    requires !s.cleaned
    ensures Fewer(s, Respond(s, reply))
  {
    if reply.Envelope? && reply.id in s.pending { AnswerFewer(s, reply.id, reply.body); }
  }

  lemma AnswerFewer(s: State, id: nat, body: Body)
    requires !s.cleaned && id in s.pending
    ensures Fewer(s, Answer(s, id, body))
  {
  }

  lemma LineAwaits(parse: Parser, s: State, line: Bytes)
    requires Awaits(s) && !s.cleaned
    ensures Awaits(DeliverLine(parse, s, line))
  {
    if |line| <= MAX_STDOUT_LINE_BYTES {
      var reply := parse(StripCarriageReturn(line));
      RespondFewer(Take(s, line, reply), reply);
      FewerAwaits(s, Respond(Take(s, line, reply), reply));
    }
  }

  lemma {:induction false} DeliverAwaits(parse: Parser, s: State, lines: seq<Bytes>, rest: Bytes)
    requires Awaits(s)
    ensures Awaits(Deliver(parse, s, lines, rest))
    decreases |lines|
  {
    if !s.cleaned {
      if lines != [] {
        LineAwaits(parse, s, lines[0]);
        DeliverAwaits(parse, DeliverLine(parse, s, lines[0]), lines[1..], rest);
      }
    }
  }

  lemma StdoutAwaits(parse: Parser, s: State, chunk: Bytes)
    requires Inv(s) && Awaits(s)
    ensures Awaits(Stdout(parse, s, chunk))
  {
    var t := Stdout(parse, s, chunk);
    assert Awaits(Bare(t)) ==> Awaits(t);
    if s.cleaned {
      StdoutInert(parse, s, chunk);
    } else {
      StdoutDelivers(parse, s, chunk);
      DeliverAwaits(parse, Bare(s), Framing.Lines(s.buffer + chunk), Framing.Rest(s.buffer + chunk));
    }
  }

  lemma WriteDoneAwaits(s: State, ok: bool, w: WriteResult)
    requires Inv(s) && Awaits(s)
    ensures Awaits(WriteDone(s, ok, w))
  {
    if s.inFlight != 0 && ok {
      LandedAwaits(s);
      LandedKeeps(s, ok);
      UsableFlushAwaits(Landed(s, ok), w);
    }
  }

  lemma DrainAwaits(s: State, w: WriteResult)
    requires Inv(s) && Awaits(s)
    ensures Awaits(Drained(s, w))
  {
    UsableFlushAwaits(s.(blocked := false), w);
  }

  lemma PoisonAwaits(s: State, code: Code)
    ensures Awaits(Poison(s, code))
  {
  }

  lemma ChildAwaits(s: State)
    requires Awaits(s)
    ensures Awaits(Spawned(s)) && Awaits(ChildError(s)) && Awaits(ChildClose(s))
  {
    PoisonAwaits(if s.childStarted then s else Recalled(s), SpawnFailed);
    PoisonAwaits(Gone(s), ChildExited);
  }

  lemma CloseAwaits(s: State)
    requires Awaits(s)
    ensures Awaits(Close(s))
  {
    PoisonAwaits(s, Closed);
    PoisonAwaits(s.(closing := Waiting), Closed);
  }

  lemma DeadlineAwaits(s: State)
    requires Awaits(s)
    ensures Awaits(ShutdownDeadline(s))
  {
  }

  lemma CallerAwaits(parse: Parser, s: State, e: Event)
    requires Inv(s) && Awaits(s) && (e.EvRequest? || e.EvAbort? || e.EvTimeout?)
    ensures Awaits(Step(parse, s, e))
  {
    match e
    case EvRequest(r) => RequestAwaits(s, r);
    case EvAbort(id, w) => AbortAwaits(s, id, w);
    case EvTimeout(id, w) => AbortAwaits(s, id, w);
  }

  lemma PipeAwaits(parse: Parser, s: State, e: Event)
    requires Inv(s) && Awaits(s) && FromPipes(e)
    ensures Awaits(Step(parse, s, e))
  {
    match e
    case EvWriteDone(ok, w) => WriteDoneAwaits(s, ok, w);
    case EvDrain(w) => DrainAwaits(s, w);
    case EvStdout(chunk) => if s.child { StdoutAwaits(parse, s, chunk); }
    case EvStdinError => PoisonAwaits(s, RequestWriteFailed);
    case EvStdoutError => PoisonAwaits(s, ResponseReadFailed);
  }

  lemma StepAwaits(parse: Parser, s: State, e: Event)
    requires Inv(s) && Awaits(s)
    ensures Awaits(Step(parse, s, e))
  {
    if e.EvRequest? || e.EvAbort? || e.EvTimeout? {
      CallerAwaits(parse, s, e);
    } else if FromPipes(e) {
      PipeAwaits(parse, s, e);
    } else {
      ChildAwaits(s);
      CloseAwaits(s);
      DeadlineAwaits(s);
    }
  }

  /** Over every history: while the transport is usable, of the pending bodies handed over exactly the one
      whose write callback is still to come counts as not yet written out. */
  lemma {:induction false} WritesAreAwaited(parse: Parser, events: seq<Event>)
    ensures Awaits(Run(parse, events))
  {
    if events != [] {
      WritesAreAwaited(parse, Front(events));
      RunKeeps(parse, Front(events));
      StepAwaits(parse, Run(parse, Front(events)), Last(events));
    }
  }
}
