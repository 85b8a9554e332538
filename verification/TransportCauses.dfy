/** Exactly what poisons the transport, and exactly what ends one promise without poisoning. */
module TransportCauses {
  import opened Basics
  import opened TransportTypes
  import opened TransportLog
  import opened TransportModel
  import opened TransportInvariant
  import opened TransportChunking
  import opened Framing

  predicate Idle(s: State) {
    !s.writing && !s.blocked
  }

  /** The events other than output that poison a usable transport: a failed spawn, a failed write, a
      timeout after dispatch, the cancellation of a body still being written, the child's error or
      exit, a broken stream, and close. */
  predicate Poisons(s: State, e: Event) {
    match e
    case EvRequest(r) =>
      r.methodGiven && Refusal(s, r).None? && ((!s.child && !r.spawns) || (Idle(s) && r.write.Throws?))
    case EvWriteDone(ok, w) => s.inFlight != 0 && (!ok || (!s.blocked && s.queue != [] && w.Throws?))
    case EvDrain(w) => s.child && !s.writing && s.queue != [] && w.Throws?
    case EvStdout(_) => false
    case EvAbort(id, _) =>
      id in s.pending && s.pending[id].signal
      && s.pending[id].dispatched && !s.pending[id].definitive && !s.pending[id].writeCompleted
    case EvTimeout(id, _) => id in s.pending && s.pending[id].dispatched
    case EvSpawned => false
    case EvChildError => s.child
    case EvChildClose => s.child
    case EvStdinError => s.child
    case EvStdoutError => s.child
    case EvClose => s.closing.NotRequested?
    case EvShutdownDeadline => false
  }

  /** A usable transport whose queue waits for the pipe writes nothing when a queued body is taken back:
      cancelling never dispatches another request. */
  lemma CancelWritesNothing(s: State, id: nat, o: Outcome, w: WriteResult)
    requires Inv(s) && !s.cleaned
    ensures var t := CancelQueued(s, id, o, w);
            && !t.cleaned && t.audit.written == s.audit.written && t.inFlight == s.inFlight
            && t.pending.Keys
               == if id in s.pending && !s.pending[id].dispatched then s.pending.Keys - {id} else s.pending.Keys
  {
    if id in s.pending && !s.pending[id].dispatched {
      AbsentFromQueue(s.queue, id);
      var i := IndexOf(s.queue, id);
      assert id in QueueIds(s.queue) && i < |s.queue|;
      assert s.writing || s.blocked;
      assert CancelQueued(s, id, o, w) == Withdraw(s, i, o);
    }
  }

  lemma FlushPoisons(s: State, w: WriteResult)
    requires !s.cleaned
    ensures Flush(s, w).cleaned <==> CanWrite(s) && w.Throws?
    ensures !Flush(s, w).cleaned ==> Flush(s, w).pending.Keys == s.pending.Keys
  {
  }

  lemma RequestPoisons(s: State, r: RequestArgs)
    requires Inv(s) && !s.cleaned
    ensures Request(s, r).cleaned <==> Poisons(s, EvRequest(r))
    ensures !Request(s, r).cleaned ==> s.pending.Keys <= Request(s, r).pending.Keys
  {
    if r.methodGiven {
      if Refusal(s, r).Some? {
        RefusalStays(s, r);
      } else {
        assert Request(s, r) == Accept(s, r);
        AcceptPoisons(s, r);
      }
    }
  }

  lemma RefusalStays(s: State, r: RequestArgs)
    requires s.failure.None? && r.methodGiven && Refusal(s, r).Some?
    ensures Request(s, r).cleaned == s.cleaned && Request(s, r).pending == s.pending
  {
    assert Request(s, r) == TurnAway(s, UnavailableFor(Fresh(r.definitive, false), FailureOf(Refusal(s, r).value)));
  }

  lemma AcceptPoisons(s: State, r: RequestArgs)
    requires !s.cleaned && r.body.Some?
    ensures Accept(s, r).cleaned <==> (!s.child && !r.spawns) || (Idle(s) && r.write.Throws?)
    ensures !Accept(s, r).cleaned ==> s.pending.Keys <= Accept(s, r).pending.Keys
  {
    FlushPoisons(Admit(s, r), r.write);
  }

  lemma WritePoisons(s: State, ok: bool, w: WriteResult)
    requires Inv(s) && !s.cleaned
    ensures WriteDone(s, ok, w).cleaned <==> Poisons(s, EvWriteDone(ok, w))
    ensures !WriteDone(s, ok, w).cleaned ==> WriteDone(s, ok, w).pending.Keys == s.pending.Keys
  {
    FlushPoisons(Landed(s, ok), w);
  }

  lemma DrainPoisons(s: State, w: WriteResult)
    requires Inv(s) && !s.cleaned
    ensures s.child ==> (Drained(s, w).cleaned <==> Poisons(s, EvDrain(w)))
    ensures !Drained(s, w).cleaned ==> Drained(s, w).pending.Keys == s.pending.Keys
  {
    FlushPoisons(s.(blocked := false), w);
  }

  /** What an abort does, by the request it finds. */
  lemma AbortCases(s: State, id: nat, w: WriteResult)
    requires Inv(s) && !s.cleaned && id in s.pending && s.pending[id].signal
    ensures var t, p := Abort(s, id, w), s.pending[id];
            && (t.cleaned <==> p.dispatched && !p.definitive && !p.writeCompleted)
            && (!t.cleaned ==> t.pending.Keys
                               == if p.dispatched && p.definitive then s.pending.Keys else s.pending.Keys - {id})
  {
    var p, failure := s.pending[id], FailureOf(RequestCancelled);
    if !p.dispatched {
      CancelWritesNothing(s, id, UnavailableFor(p, failure), w);
    } else if p.definitive {
      assert Abort(s, id, w) == s;
    } else if p.writeCompleted {
      assert Abort(s, id, w) == Abandon(s, id, failure);
    } else {
      assert Abort(s, id, w) == Invalidate(s, failure);
    }
  }

  lemma TimeoutCases(s: State, id: nat, w: WriteResult)
    requires Inv(s) && !s.cleaned && id in s.pending
    ensures var t, p := TimedOut(s, id, w), s.pending[id];
            && (t.cleaned <==> p.dispatched)
            && (!t.cleaned ==> t.pending.Keys == s.pending.Keys - {id})
  {
    var p, failure := s.pending[id], FailureOf(RequestTimeout);
    if p.dispatched {
      assert TimedOut(s, id, w) == Invalidate(s, failure);
    } else {
      CancelWritesNothing(s, id, UnavailableFor(p, failure), w);
    }
  }

  lemma AbortPoisons(s: State, id: nat, w: WriteResult)
    requires Inv(s) && !s.cleaned
    ensures Abort(s, id, w).cleaned <==> Poisons(s, EvAbort(id, w))
  {
    if id in s.pending && s.pending[id].signal {
      AbortCases(s, id, w);
    } else {
      assert Abort(s, id, w) == s;
    }
  }

  lemma TimeoutPoisons(s: State, id: nat, w: WriteResult)
    requires Inv(s) && !s.cleaned
    ensures TimedOut(s, id, w).cleaned <==> id in s.pending && s.pending[id].dispatched
  {
    if id in s.pending {
      TimeoutCases(s, id, w);
    } else {
      assert TimedOut(s, id, w) == s;
    }
  }

  /** Apart from what the worker writes, a usable transport is poisoned exactly for these causes. */
  lemma PoisonedExactlyFor(parse: Parser, s: State, e: Event)
    requires Inv(s) && !s.cleaned && !e.EvStdout?
    ensures Step(parse, s, e).cleaned <==> Poisons(s, e)
  {
    match e
    case EvRequest(r) => RequestPoisons(s, r);
    case EvWriteDone(ok, w) => WritePoisons(s, ok, w);
    case EvDrain(w) => DrainPoisons(s, w);
    case EvAbort(id, w) => AbortPoisons(s, id, w);
    case EvTimeout(id, w) => TimeoutPoisons(s, id, w);
    case EvSpawned =>
    case EvChildError =>
    case EvChildClose =>
    case EvStdinError =>
    case EvStdoutError =>
    case EvClose =>
    case EvShutdownDeadline =>
  }

  /** The code each of these events poisons with. */
  function CodeOf(s: State, e: Event): Code
    requires Poisons(s, e)
  {
    match e
    case EvRequest(r) => if s.child || r.spawns then RequestWriteFailed else SpawnFailed
    case EvWriteDone(_, _) => RequestWriteFailed
    case EvDrain(_) => RequestWriteFailed
    case EvAbort(_, _) => RequestCancelled
    case EvTimeout(_, _) => RequestTimeout
    case EvChildError => SpawnFailed
    case EvChildClose => ChildExited
    case EvStdinError => RequestWriteFailed
    case EvStdoutError => ResponseReadFailed
    case EvClose => Closed
  }

  /** The poisoning is the last thing in the trace, under this code, and is remembered. */
  predicate PoisonedBy(t: State, code: Code) {
    && t.cleaned && t.trace != [] && Last(t.trace).Poisoned? && Last(t.trace).code == code
    && t.failure.Some? && t.failure.value.code == code
  }

  lemma PoisonTells(s: State, code: Code)
    requires !s.cleaned
    ensures PoisonedBy(Poison(s, code), code)
  {
    Snoc(s.trace, Poisoned(code, Rejections(s.pending, FailureOf(code))));
  }

  lemma FlushTells(s: State, w: WriteResult)
    requires !s.cleaned && CanWrite(s) && w.Throws?
    ensures PoisonedBy(Flush(s, w), RequestWriteFailed)
  {
    PoisonTells(Dispatch(s).(writing := false, inFlight := 0), RequestWriteFailed);
  }

  lemma AcceptTells(s: State, r: RequestArgs)
    requires Inv(s) && !s.cleaned && Refusal(s, r).None? && Poisons(s, EvRequest(r))
    ensures PoisonedBy(Accept(s, r), CodeOf(s, EvRequest(r)))
  {
    if !s.child && !r.spawns {
      PoisonTells(Register(s, r), SpawnFailed);
    } else {
      FlushTells(Admit(s, r), r.write);
    }
  }

  lemma RequestTells(s: State, r: RequestArgs)
    requires Inv(s) && !s.cleaned && Poisons(s, EvRequest(r))
    ensures PoisonedBy(Request(s, r), CodeOf(s, EvRequest(r)))
  {
    RequestAccepts(s, r);
    AcceptTells(s, r);
  }

  lemma RequestAccepts(s: State, r: RequestArgs)
    requires s.failure.None? && r.methodGiven && Refusal(s, r).None?
    ensures Request(s, r) == Accept(s, r)
  {
  }

  lemma WriteDoneTells(s: State, ok: bool, w: WriteResult)
    requires Inv(s) && !s.cleaned && Poisons(s, EvWriteDone(ok, w))
    ensures PoisonedBy(WriteDone(s, ok, w), RequestWriteFailed)
  {
    if ok { FlushTells(Landed(s, ok), w); } else { PoisonTells(Landed(s, ok), RequestWriteFailed); }
  }

  lemma AbortTells(s: State, id: nat, w: WriteResult)
    requires Inv(s) && !s.cleaned && Poisons(s, EvAbort(id, w))
    ensures PoisonedBy(Abort(s, id, w), RequestCancelled)
  {
    PoisonTells(s, RequestCancelled);
    assert Abort(s, id, w) == Poison(s, RequestCancelled);
  }

  lemma TimeoutTells(s: State, id: nat, w: WriteResult)
    requires Inv(s) && !s.cleaned && Poisons(s, EvTimeout(id, w))
    ensures PoisonedBy(TimedOut(s, id, w), RequestTimeout)
  {
    PoisonTells(s, RequestTimeout);
    assert TimedOut(s, id, w) == Poison(s, RequestTimeout);
  }

  lemma ChildTells(s: State)
    requires Inv(s) && !s.cleaned && s.child
    ensures PoisonedBy(ChildError(s), SpawnFailed) && PoisonedBy(ChildClose(s), ChildExited)
  {
    PoisonTells(if s.childStarted then s else Recalled(s), SpawnFailed);
    PoisonTells(Gone(s), ChildExited);
  }

  lemma CloseTells(s: State)
    requires !s.cleaned && s.closing.NotRequested?
    ensures PoisonedBy(Close(s), Closed)
  {
    PoisonTells(s, Closed);
    PoisonTells(s.(closing := Waiting), Closed);
  }

  /** Which code each cause poisons with. */
  lemma PoisonedWith(parse: Parser, s: State, e: Event)
    requires Inv(s) && !s.cleaned && Poisons(s, e)
    ensures PoisonedBy(Step(parse, s, e), CodeOf(s, e))
  {
    match e
    case EvRequest(r) => RequestTells(s, r);
    case EvWriteDone(ok, w) => WriteDoneTells(s, ok, w);
    case EvDrain(w) => FlushTells(s.(blocked := false), w);
    case EvAbort(id, w) => AbortTells(s, id, w);
    case EvTimeout(id, w) => TimeoutTells(s, id, w);
    case EvChildError => ChildTells(s);
    case EvChildClose => ChildTells(s);
    case EvStdinError => PoisonTells(s, RequestWriteFailed);
    case EvStdoutError => PoisonTells(s, ResponseReadFailed);
    case EvClose => CloseTells(s);
  }

  // ---------------------------------------------------------------- what a line does

  /** What a reply is blamed for: its form; an id nobody waits for; or a body with no single result or with
      an error that is none. */
  function Blame(s: State, reply: Reply): Option<Code> {
    match reply
    case NotJson => Some(MalformedOutput)
    case NotObject => Some(InvalidEnvelope)
    case BadProtocol => Some(InvalidProtocol)
    case Envelope(id, body) =>
      if id !in s.pending then if id in s.abandoned then None else Some(UnknownResponseId)
      else if body.Ambiguous? then Some(AmbiguousResponse)
      else if body.BadError? then Some(InvalidStructuredError)
      else None
  }

  /** The promise the reply answers ends with what it says. */
  predicate EndsWith(reply: Reply, e: Entry) {
    && reply.Envelope? && e.Settled? && e.id == reply.id
    && match reply.body
       case Value(v) => e.outcome == Resolved(v)
       case StructuredError(error, _) => e.outcome.WorkerError? && e.outcome.error == error
       case _ => false
  }

  lemma BlameTells(s: State, reply: Reply)
    requires !s.cleaned && Blame(s, reply).Some?
    ensures PoisonedBy(Respond(s, reply), Blame(s, reply).value) && s.trace <= Respond(s, reply).trace
  {
    PoisonTells(s, Blame(s, reply).value);
    assert Respond(s, reply) == Poison(s, Blame(s, reply).value);
  }

  function AnswerTold(s: State, reply: Reply): Outcome
    requires reply.Envelope? && reply.id in s.pending
  {
    match reply.body
    case StructuredError(error, retryable) => WorkerErrorFor(s.pending[reply.id], error, retryable)
    case Value(v) => Resolved(v)
    case _ => Resolved("")
  }

  lemma AnswerTells(s: State, reply: Reply)
    requires !s.cleaned && Blame(s, reply).None? && reply.id in s.pending
    ensures var t := Respond(s, reply);
            !t.cleaned && t.trace == s.trace + [Settled(reply.id, AnswerTold(s, reply))]
    ensures EndsWith(reply, Settled(reply.id, AnswerTold(s, reply)))
  {
    assert Respond(s, reply) == Settle(s, reply.id, AnswerTold(s, reply));
  }

  lemma LateTells(s: State, reply: Reply)
    requires !s.cleaned && Blame(s, reply).None? && reply.id !in s.pending
    ensures var t := Respond(s, reply); !t.cleaned && t.trace == s.trace && t.pending == s.pending
  {
    assert Respond(s, reply) == Absorb(s, reply.id);
  }

  /** A line off stdout is heard; what it says, cut of its carriage return, is blamed on the worker exactly
      for these faults, and otherwise ends the promise it answers, or none when the answer is late. */
  lemma LineMeans(parse: Parser, s: State, line: Bytes, reply: Reply)
    requires !s.cleaned && reply == parse(if line != [] && line[|line| - 1] == 13 then line[..|line| - 1] else line)
    ensures var t, n := HandleLine(parse, s, line), |s.trace|;
            && n < |t.trace| && t.trace[..n] == s.trace && t.trace[n] == Received(line, reply)
            && (if Blame(s, reply).Some? then PoisonedBy(t, Blame(s, reply).value)
                else
                  && !t.cleaned
                  && (if reply.id in s.pending then |t.trace| == n + 2 && EndsWith(reply, t.trace[n + 1])
                      else |t.trace| == n + 1 && t.pending == s.pending))
  {
    var u := Take(s, line, reply);
    assert HandleLine(parse, s, line) == Respond(u, reply);
    assert Blame(u, reply) == Blame(s, reply);
    if Blame(s, reply).Some? {
      BlameTells(u, reply);
    } else if reply.id in s.pending {
      AnswerTells(u, reply);
    } else {
      LateTells(u, reply);
    }
  }

  // ---------------------------------------------------------------- one promise ends

  predicate AnswerTo(parse: Parser, line: Bytes, id: nat) {
    var reply := parse(StripCarriageReturn(line));
    reply.Envelope? && reply.id == id
  }

  lemma LineEnds(parse: Parser, s: State, line: Bytes, id: nat)
    requires !s.cleaned && !DeliverLine(parse, s, line).cleaned
    ensures id in DeliverLine(parse, s, line).pending <==> id in s.pending && !AnswerTo(parse, line, id)
  {
    var reply := parse(StripCarriageReturn(line));
    var t := Take(s, line, reply);
    assert DeliverLine(parse, s, line) == Respond(t, reply);
    ReplyEnds(t, reply);
  }

  lemma ReplyEnds(s: State, reply: Reply)
    requires !s.cleaned && !Respond(s, reply).cleaned
    ensures reply.Envelope? && Respond(s, reply).pending.Keys == s.pending.Keys - {reply.id}
  {
    if reply.Envelope? && reply.id in s.pending {
      AnswerEnds(s, reply.id, reply.body);
    }
  }

  lemma AnswerEnds(s: State, id: nat, body: Body)
    requires id in s.pending && !s.cleaned && !Answer(s, id, body).cleaned
    ensures Answer(s, id, body).pending.Keys == s.pending.Keys - {id}
  {
    match body
    case Value(v) => assert Answer(s, id, body) == Settle(s, id, Resolved(v));
    case StructuredError(e, retryable) =>
      assert Answer(s, id, body) == Settle(s, id, WorkerErrorFor(s.pending[id], e, retryable));
    case _ => assert false;
  }

  lemma {:induction false} DeliverEnds(parse: Parser, s: State, lines: seq<Bytes>, rest: Bytes, id: nat)
    requires !s.cleaned && !Deliver(parse, s, lines, rest).cleaned
    ensures id in Deliver(parse, s, lines, rest).pending
            <==> id in s.pending && forall k :: 0 <= k < |lines| ==> !AnswerTo(parse, lines[k], id)
    decreases |lines|
  {
    if lines != [] {
      var t := DeliverLine(parse, s, lines[0]);
      LineEnds(parse, s, lines[0], id);
      DeliverEnds(parse, t, lines[1..], rest, id);
      assert forall k :: 0 <= k < |lines[1..]| ==> lines[1..][k] == lines[k + 1];
    }
  }

  ghost predicate AnsweredBy(parse: Parser, s: State, chunk: Bytes, id: nat) {
    var lines := Lines(s.buffer + chunk);
    exists k :: 0 <= k < |lines| && AnswerTo(parse, lines[k], id)
  }

  /** What ends this promise alone: its answer; its cancellation before dispatch, or after its body was
      written when it is not definitive; its timeout before dispatch. */
  ghost predicate EndsAlone(parse: Parser, s: State, e: Event, id: nat)
    requires id in s.pending
  {
    match e
    case EvStdout(chunk) => s.child && AnsweredBy(parse, s, chunk, id)
    case EvAbort(who, _) =>
      who == id && s.pending[id].signal
      && (!s.pending[id].dispatched || (!s.pending[id].definitive && s.pending[id].writeCompleted))
    case EvTimeout(who, _) => who == id && !s.pending[id].dispatched
    case _ => false
  }

  lemma OutputEndsAlone(parse: Parser, s: State, chunk: Bytes, id: nat)
    requires Inv(s) && !s.cleaned && id in s.pending && !Stdout(parse, s, chunk).cleaned
    ensures id !in Stdout(parse, s, chunk).pending <==> AnsweredBy(parse, s, chunk, id)
  {
    StdoutDelivers(parse, s, chunk);
    var t := Stdout(parse, s, chunk);
    assert Bare(t).pending == t.pending && Bare(t).cleaned == t.cleaned;
    DeliverEnds(parse, Bare(s), Lines(s.buffer + chunk), Rest(s.buffer + chunk), id);
  }

  lemma AbortEndsAlone(parse: Parser, s: State, who: nat, w: WriteResult, id: nat)
    requires Inv(s) && !s.cleaned && id in s.pending && !Abort(s, who, w).cleaned
    ensures id !in Abort(s, who, w).pending <==> EndsAlone(parse, s, EvAbort(who, w), id)
  {
    if who in s.pending && s.pending[who].signal {
      AbortCases(s, who, w);
    } else {
      assert Abort(s, who, w) == s;
    }
  }

  lemma TimeoutEndsAlone(parse: Parser, s: State, who: nat, w: WriteResult, id: nat)
    requires Inv(s) && !s.cleaned && id in s.pending && !TimedOut(s, who, w).cleaned
    ensures id !in TimedOut(s, who, w).pending <==> EndsAlone(parse, s, EvTimeout(who, w), id)
  {
    if who in s.pending {
      TimeoutCases(s, who, w);
    } else {
      assert TimedOut(s, who, w) == s;
    }
  }

  lemma OthersEndNothing(parse: Parser, s: State, e: Event)
    requires Inv(s) && !s.cleaned && !Step(parse, s, e).cleaned
    requires e.EvSpawned? || e.EvChildError? || e.EvChildClose? || e.EvStdinError? || e.EvStdoutError? || e.EvClose?
             || e.EvShutdownDeadline?
    ensures Step(parse, s, e).pending == s.pending
  {
    match e
    case EvSpawned =>
    case EvShutdownDeadline =>
    case _ => PoisonedExactlyFor(parse, s, e);
  }

  /** While the transport stays usable, a pending promise ends exactly for these causes; in particular a
      definitive request that was dispatched ends by its answer alone. */
  lemma EndsExactlyFor(parse: Parser, s: State, e: Event, id: nat)
    requires Inv(s) && !s.cleaned && id in s.pending && !Step(parse, s, e).cleaned
    ensures id !in Step(parse, s, e).pending <==> EndsAlone(parse, s, e, id)
    ensures s.pending[id].dispatched && s.pending[id].definitive && id !in Step(parse, s, e).pending ==>
              e.EvStdout? && AnsweredBy(parse, s, e.chunk, id)
  {
    match e
    case EvStdout(chunk) => if s.child { OutputEndsAlone(parse, s, chunk, id); }
    case EvAbort(who, w) => AbortEndsAlone(parse, s, who, w, id);
    case EvTimeout(who, w) => TimeoutEndsAlone(parse, s, who, w, id);
    case EvRequest(r) => RequestPoisons(s, r);
    case EvWriteDone(ok, w) => WritePoisons(s, ok, w);
    case EvDrain(w) => DrainPoisons(s, w);
    case _ => OthersEndNothing(parse, s, e);
  }
}
