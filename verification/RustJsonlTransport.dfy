/** The transport object itself: its fields, updated in place, one method per event.  Every method
    is tied to the function of the same name in `TransportModel`, and keeps the invariant. */
module RustJsonlTransportClass {
  import opened Basics
  import opened TransportTypes
  import opened TransportLog
  import opened TransportModel
  import opened TransportInvariant
  import opened Framing

  class RustJsonlTransport {
    const parse: Parser
    var nextId: nat
    var child: bool
    var childStarted: bool
    var childClosed: bool
    /** Whether the child has reported an error before its start; it will then never report a start. */
    ghost var spawnFailed: bool
    var pending: map<nat, Pending>
    var abandoned: seq<nat>
    var writeQueue: seq<QueuedWrite>
    var queuedBytes: int
    var writing: bool
    var blocked: bool
    /** The request whose write callback has not been called yet; 0 when none is owed. */
    var inFlight: nat
    var stdoutBuffer: Bytes
    var unusable: Option<Failure>
    var outcomeUnknown: bool
    var cleaned: bool
    var closing: Closing
    ghost var trace: seq<Entry>
    ghost var audit: Audit

    ghost function Snapshot(): State
      reads this
    {
      State(nextId, child, childStarted, childClosed, spawnFailed, pending, abandoned, writeQueue, queuedBytes, writing,
            blocked, inFlight, stdoutBuffer, unusable, outcomeUnknown, cleaned, closing, trace, audit)
    }

    ghost predicate Valid()
      reads this
    {
      Inv(Snapshot())
    }

    constructor (parse: Parser)
      ensures Snapshot() == INITIAL && Valid() && this.parse == parse
    {
      this.parse := parse;
      nextId, child, childStarted, childClosed := 1, false, false, false;
      pending, abandoned, writeQueue, queuedBytes := map[], [], [], 0;
      writing, blocked, inFlight, stdoutBuffer := false, false, 0, [];
      unusable, outcomeUnknown, cleaned, closing := None, false, false, NotRequested;
      spawnFailed, trace, audit := false, [], NEW_AUDIT;
      new;
      RunKeeps(parse, []);
    }

    // -------------------------------------------------------------- internal steps

    /** Rejects every pending request in one synchronous sweep and empties the transport. */
    method Invalidate(failure: Failure)
      modifies this
      ensures Snapshot() == TransportModel.Invalidate(old(Snapshot()), failure)
    {
      if cleaned {
        return;
      }
      ghost var after := TransportModel.Invalidate(Snapshot(), failure);
      var rejected := RejectAll(failure);
      Empty(failure);
      trace, audit := trace + [Poisoned(failure.code, rejected)], after.audit;
    }

    method Empty(failure: Failure)
      modifies this
      ensures Snapshot() == Emptied(old(Snapshot()), failure)
    {
      Condemn(failure);
      ClearQueues();
      ClearPending();
    }

    method Condemn(failure: Failure)
      modifies `outcomeUnknown, `cleaned, `unusable
      ensures Snapshot() == old(Snapshot()).(cleaned := true, outcomeUnknown := AuthoritativeUnknown(pending),
                                             failure := Some(failure))
    {
      outcomeUnknown := AuthoritativeUnknown(pending);
      cleaned, unusable := true, Some(failure);
    }

    method ClearQueues()
      modifies `writeQueue, `abandoned, `queuedBytes
      ensures Snapshot() == old(Snapshot()).(queue := [], abandoned := [], queuedBytes := 0)
    {
      writeQueue, abandoned, queuedBytes := [], [], 0;
    }

    method ClearPending()
      modifies `writing, `blocked, `pending
      ensures Snapshot() == old(Snapshot()).(writing := false, blocked := false, pending := map[])
    {
      writing, blocked, pending := false, false, map[];
    }

    /** Something to be seen from outside. */
    ghost method Record(e: Entry, after: Audit)
      modifies `trace, `audit
      ensures Snapshot() == old(Snapshot()).(trace := old(trace) + [e], audit := after)
    {
      trace, audit := trace + [e], after;
    }

    method RejectAll(failure: Failure) returns (rejected: map<nat, Outcome>)
      ensures rejected == Rejections(pending, failure)
    {
      var left := pending.Keys;
      rejected := map[];
      while left != {}
        invariant left <= pending.Keys
        invariant rejected.Keys == pending.Keys - left
        invariant forall id | id in rejected :: rejected[id] == FailureForPending(pending[id], failure)
      {
        var id :| id in left;
        rejected := rejected[id := FailureForPending(pending[id], failure)];
        left := left - {id};
      }
    }

    /** Hands the oldest queued body to the child's stdin, one at a time. */
    method FlushWrites(w: WriteResult)
      modifies this
      ensures Snapshot() == Flush(old(Snapshot()), w)
    {
      if cleaned || writing || blocked || !child {
        return;
      }
      if writeQueue == [] {
        return;
      }
      ShiftAndWrite();
      if w.Throws? {
        TakeNothing();
        Invalidate(FailureOf(RequestWriteFailed));
        return;
      }
      if w.Full? {
        blocked := true;
      }
    }

    method TakeNothing()
      modifies `writing, `inFlight
      ensures Snapshot() == old(Snapshot()).(writing := false, inFlight := 0)
    {
      writing, inFlight := false, 0;
    }

    method ShiftAndWrite()
      requires writeQueue != []
      modifies this
      ensures Snapshot() == Dispatch(old(Snapshot()))
    {
      ghost var after := Dispatch(Snapshot());
      var item := writeQueue[0];
      Shift();
      Send(item.id);
      Record(Wrote(item.id), after.audit);
    }

    method Shift()
      requires writeQueue != []
      modifies `writeQueue, `queuedBytes
      ensures Snapshot() == old(Snapshot()).(queue := old(writeQueue)[1..],
                                             queuedBytes := old(queuedBytes) - old(writeQueue)[0].bytes)
    {
      queuedBytes := queuedBytes - writeQueue[0].bytes;
      writeQueue := writeQueue[1..];
    }

    method Send(id: nat)
      modifies `pending, `writing, `inFlight
      ensures Snapshot()
           == old(Snapshot()).(pending := MarkDispatched(old(pending), id), writing := true, inFlight := id)
    {
      pending := MarkDispatched(pending, id);
      writing, inFlight := true, id;
    }

    /** Ends one promise on its own. */
    method SettlePending(id: nat, outcome: Outcome)
      modifies `pending, `trace, `audit
      ensures Snapshot() == Settle(old(Snapshot()), id, outcome)
    {
      ghost var after := Settle(Snapshot(), id, outcome);
      pending := Forget(pending, id);
      Record(Settled(id, outcome), after.audit);
    }

    method CancelQueued(id: nat, outcome: Outcome, w: WriteResult)
      modifies this
      ensures Snapshot() == TransportModel.CancelQueued(old(Snapshot()), id, outcome, w)
    {
      if id !in pending || pending[id].dispatched {
        return;
      }
      var index := IndexOf(writeQueue, id);
      if index == |writeQueue| {
        return;
      }
      queuedBytes := queuedBytes - writeQueue[index].bytes;
      writeQueue := writeQueue[..index] + writeQueue[index + 1..];
      assert Snapshot() == Unqueue(old(Snapshot()), index);
      SettlePending(id, outcome);
      FlushWrites(w);
    }

    /** The caller gives up on a body already written; its answer, if it comes, will be absorbed. */
    method AbandonRequest(id: nat, failure: Failure)
      modifies this
      ensures Snapshot() == Abandon(old(Snapshot()), id, failure)
    {
      if id !in pending || !pending[id].dispatched || !pending[id].writeCompleted {
        return;
      }
      var outcome := UnavailableFor(pending[id], failure);
      if id !in abandoned {
        abandoned := abandoned + [id];
      }
      if |abandoned| > MAX_PENDING {
        abandoned := abandoned[1..];
      }
      SettlePending(id, outcome);
    }

    // -------------------------------------------------------------- events from the caller

    method Request(r: RequestArgs)
      requires Valid()
      modifies this
      ensures Valid() && Snapshot() == TransportModel.Request(old(Snapshot()), r)
    {
      RequestKeeps(Snapshot(), r);
      Begin(r);
    }

    /** Turns the call away, or enters it. */
    method Begin(r: RequestArgs)
      modifies this
      ensures Snapshot() == TransportModel.Request(old(Snapshot()), r)
    {
      if !r.methodGiven {
        return;
      }
      if unusable.Some? {
        var outcome := AfterFailure(r.definitive);
        RejectAtOnce(outcome);
        return;
      }
      var refusal := Check(r);
      if refusal.Some? {
        RejectAtOnce(UnavailableFor(Fresh(r.definitive, false), FailureOf(refusal.value)));
        return;
      }
      Enter(r);
    }

    /** What every call is told once the transport is unusable. */
    method AfterFailure(definitive: bool) returns (outcome: Outcome)
      requires unusable.Some?
      ensures outcome == UnavailableAfterFailure(Snapshot(), definitive)
      ensures ClaimsNotStarted(outcome) && (outcomeUnknown ==> outcome.execution.retry.ReconcileFirst?)
    {
      var failure := unusable.value;
      if outcomeUnknown {
        failure := Failure(AuthoritativeOutcomeUnknown, false, Some(ReconcileFirst));
      }
      return UnavailableFor(Fresh(definitive, false), failure);
    }

    /** The checks before a request is registered, in order. */
    method Check(r: RequestArgs) returns (refusal: Option<Code>)
      ensures refusal == Refusal(Snapshot(), r)
      ensures refusal.None? ==>
                |pending| < MAX_PENDING && r.body.Some? && queuedBytes + r.body.value <= MAX_QUEUED_BYTES
    {
      if !ValidTimeout(r.timeout) {
        return Some(InvalidTimeout);
      }
      if r.signal.AlreadyAborted? {
        return Some(RequestCancelled);
      }
      if |pending| >= MAX_PENDING {
        return Some(PendingLimit);
      }
      if r.body.None? {
        return Some(EncodeFailed);
      }
      if r.body.value > MAX_QUEUED_BYTES {
        return Some(RequestTooLarge);
      }
      if queuedBytes + r.body.value > MAX_QUEUED_BYTES {
        return Some(WriteQueueLimit);
      }
      return None;
    }

    method RejectAtOnce(outcome: Outcome)
      modifies `nextId, `trace, `audit
      ensures Snapshot() == TurnAway(old(Snapshot()), outcome)
    {
      ghost var after := TurnAway(Snapshot(), outcome);
      var id := nextId;
      nextId := nextId + 1;
      Record(Settled(id, outcome), after.audit);
    }

    method Enter(r: RequestArgs)
      requires r.body.Some?
      modifies this
      ensures Snapshot() == Accept(old(Snapshot()), r)
    {
      var id := RegisterPending(r);
      if !child && !r.spawns {
        Invalidate(FailureOf(SpawnFailed));
        return;
      }
      Enqueue(id, r.body.value);
      FlushWrites(r.write);
    }

    method RegisterPending(r: RequestArgs) returns (id: nat)
      modifies `nextId, `pending, `trace, `audit
      ensures id == old(nextId) && Snapshot() == Register(old(Snapshot()), r)
    {
      ghost var after := Register(Snapshot(), r);
      id := nextId;
      nextId := nextId + 1;
      pending := pending[id := Fresh(r.definitive, r.signal.LiveSignal?)];
      Record(Accepted(id, r.definitive), after.audit);
    }

    method Enqueue(id: nat, bytes: nat)
      modifies this
      ensures Snapshot() == TransportModel.Enqueue(old(Snapshot()), id, bytes)
    {
      EnsureStarted();
      writeQueue := writeQueue + [QueuedWrite(id, bytes)];
      queuedBytes := queuedBytes + bytes;
    }

    method EnsureStarted()
      modifies `child, `childStarted, `childClosed
      ensures child && childStarted == (old(child) && old(childStarted))
      ensures childClosed == (old(child) && old(childClosed))
    {
      if child {
        return;
      }
      childStarted, child, childClosed := false, true, false;
    }

    method OnAbort(id: nat, w: WriteResult)
      requires Valid()
      modifies this
      ensures Valid() && Snapshot() == Abort(old(Snapshot()), id, w)
    {
      AbortKeeps(Snapshot(), id, w);
      if id !in pending || !pending[id].signal {
        return;
      }
      var p, failure := pending[id], FailureOf(RequestCancelled);
      if !p.dispatched {
        CancelQueued(id, UnavailableFor(p, failure), w);
      } else if !p.definitive && p.writeCompleted {
        AbandonRequest(id, failure);
      } else if !p.definitive {
        Invalidate(failure);
      }
    }

    method TimeoutRequest(id: nat, w: WriteResult)
      requires Valid()
      modifies this
      ensures Valid() && Snapshot() == TimedOut(old(Snapshot()), id, w)
    {
      TimedOutKeeps(Snapshot(), id, w);
      if id !in pending {
        return;
      }
      var failure := FailureOf(RequestTimeout);
      if !pending[id].dispatched {
        CancelQueued(id, UnavailableFor(pending[id], failure), w);
        return;
      }
      Invalidate(failure);
    }

    method Close()
      requires Valid()
      modifies this
      ensures Valid() && Snapshot() == TransportModel.Close(old(Snapshot()))
    {
      CloseKeeps(Snapshot());
      if !closing.NotRequested? {
        return;
      }
      if !child || childClosed {
        Invalidate(FailureOf(Closed));
        EnterClosing(ExitConfirmed);
        return;
      }
      EnterClosing(Waiting);
      Invalidate(FailureOf(Closed));
    }

    method EnterClosing(state: Closing)
      modifies `closing
      ensures Snapshot() == old(Snapshot()).(closing := state)
    {
      closing := state;
    }

    method OnShutdownDeadline()
      requires Valid()
      modifies this
      ensures Valid() && Snapshot() == ShutdownDeadline(old(Snapshot()))
    {
      ShutdownDeadlineKeeps(Snapshot());
      SettleClose(DeadlineMissed);
    }

    method SettleClose(end: Closing)
      modifies `closing
      ensures closing == if old(closing).Waiting? then end else old(closing)
    {
      if closing.Waiting? {
        closing := end;
      }
    }

    // -------------------------------------------------------------- events from the child

    /** The callback of `stdin.write`, always called later than the write. */
    method OnWritten(ok: bool, w: WriteResult)
      requires Valid()
      modifies this
      ensures Valid() && Snapshot() == WriteDone(old(Snapshot()), ok, w)
    {
      WriteDoneKeeps(Snapshot(), ok, w);
      if inFlight == 0 {
        return;
      }
      Land(ok);
      if ok {
        FlushWrites(w);
      } else {
        Invalidate(FailureOf(RequestWriteFailed));
      }
    }

    method Land(ok: bool)
      modifies `pending, `writing, `inFlight
      ensures Snapshot() == Landed(old(Snapshot()), ok)
    {
      if ok {
        pending := MarkWritten(pending, inFlight);
      }
      writing, inFlight := false, 0;
    }

    method OnDrain(w: WriteResult)
      requires Valid() && child
      modifies this
      ensures Valid() && Snapshot() == Drained(old(Snapshot()), w)
    {
      DrainedKeeps(Snapshot(), w);
      Unblock();
      FlushWrites(w);
    }

    method Unblock()
      modifies `blocked
      ensures Snapshot() == old(Snapshot()).(blocked := false)
    {
      blocked := false;
    }

    method OnSpawn()
      requires Valid() && child && !spawnFailed
      modifies this
      ensures Valid() && Snapshot() == Spawned(old(Snapshot()))
    {
      ghost var after := Spawned(Snapshot());
      SpawnedKeeps(Snapshot());
      childStarted := true;
      Record(Started, after.audit);
    }

    /** A child that never started cannot have read anything: its writes are taken back first. */
    method OnChildError()
      requires Valid() && child
      modifies this
      ensures Valid() && Snapshot() == ChildError(old(Snapshot()))
    {
      ChildErrorKeeps(Snapshot());
      if !childStarted {
        TakeBack();
      }
      Invalidate(FailureOf(SpawnFailed));
    }

    method TakeBack()
      modifies `pending, `spawnFailed
      ensures Snapshot() == Recalled(old(Snapshot()))
    {
      pending := Recall(pending);
      spawnFailed := true;
    }

    method OnChildClose()
      requires Valid() && child
      modifies this
      ensures Valid() && Snapshot() == ChildClose(old(Snapshot()))
    {
      ChildCloseKeeps(Snapshot());
      NoteExit();
      if cleaned {
        return;
      }
      Invalidate(FailureOf(ChildExited));
    }

    method NoteExit()
      modifies `childClosed, `closing
      ensures Snapshot() == Gone(old(Snapshot()))
    {
      childClosed := true;
      SettleClose(ExitConfirmed);
    }

    method OnStdinError()
      requires Valid() && child
      modifies this
      ensures Valid() && Snapshot() == Poison(old(Snapshot()), RequestWriteFailed)
    {
      PoisonKeeps(Snapshot(), RequestWriteFailed);
      Invalidate(FailureOf(RequestWriteFailed));
    }

    method OnStdoutError()
      requires Valid() && child
      modifies this
      ensures Valid() && Snapshot() == Poison(old(Snapshot()), ResponseReadFailed)
    {
      PoisonKeeps(Snapshot(), ResponseReadFailed);
      Invalidate(FailureOf(ResponseReadFailed));
    }

    method HandleStdout(chunk: Bytes)
      requires Valid() && child
      modifies this
      ensures Valid() && Snapshot() == Stdout(parse, old(Snapshot()), chunk)
    {
      StdoutKeeps(parse, Snapshot(), chunk);
      ReadChunk(chunk);
    }

    method ReadChunk(chunk: Bytes)
      modifies this
      ensures Snapshot() == Stdout(parse, old(Snapshot()), chunk)
    {
      if |stdoutBuffer| + |chunk| > MAX_STDOUT_LINE_BYTES && NEWLINE !in chunk {
        Invalidate(FailureOf(OutputTooLarge));
        return;
      }
      stdoutBuffer := stdoutBuffer + chunk;
      if |stdoutBuffer| > MAX_STDOUT_LINE_BYTES && NEWLINE !in stdoutBuffer {
        assert false;
      }
      ReadLines();
    }

    method ReadLines()
      modifies this
      ensures Snapshot() == Pump(parse, old(Snapshot()))
    {
      var newline := NewlineAt(stdoutBuffer);
      while newline < |stdoutBuffer|
        invariant newline == NewlineAt(stdoutBuffer)
        invariant Pump(parse, Snapshot()) == Pump(parse, old(Snapshot()))
        decreases |stdoutBuffer|
      {
        ReadLine(newline);
        if cleaned {
          return;
        }
        newline := NewlineAt(stdoutBuffer);
      }
      if |stdoutBuffer| > MAX_STDOUT_LINE_BYTES {
        Invalidate(FailureOf(OutputTooLarge));
      }
    }

    /** One round of the read loop. */
    method ReadLine(newline: nat)
      requires newline == NewlineAt(stdoutBuffer) < |stdoutBuffer|
      modifies this
      ensures Snapshot() == TakeLine(parse, old(Snapshot()))
    {
      var line := stdoutBuffer[..newline];
      Keep(stdoutBuffer[newline + 1..]);
      TakeOut(line);
    }

    method TakeOut(line: Bytes)
      modifies this
      ensures Snapshot() == if |line| > MAX_STDOUT_LINE_BYTES then Poison(old(Snapshot()), OutputTooLarge)
                            else TransportModel.HandleLine(parse, old(Snapshot()), line)
    {
      if |line| > MAX_STDOUT_LINE_BYTES {
        Invalidate(FailureOf(OutputTooLarge));
        return;
      }
      HandleLine(line);
    }

    method Keep(buffer: Bytes)
      modifies `stdoutBuffer
      ensures Snapshot() == old(Snapshot()).(buffer := buffer)
    {
      stdoutBuffer := buffer;
    }

    method HandleLine(line: Bytes)
      modifies this
      ensures Snapshot() == TransportModel.HandleLine(parse, old(Snapshot()), line)
    {
      var reply := parse(StripCarriageReturn(line));
      if !cleaned {
        Hear(line, reply);
      }
      if !reply.Envelope? {
        Invalidate(FailureOf(EnvelopeFault(reply)));
        return;
      }
      if reply.id in pending {
        AnswerPending(reply.id, reply.body);
      } else if reply.id in abandoned {
        abandoned := Without(abandoned, reply.id);
      } else {
        Invalidate(FailureOf(UnknownResponseId));
      }
    }

    method Hear(line: Bytes, reply: Reply)
      modifies `trace, `audit
      ensures Snapshot() == Take(old(Snapshot()), line, reply)
    {
      ghost var after := Take(Snapshot(), line, reply);
      trace, audit := trace + [Received(line, reply)], after.audit;
    }

    method AnswerPending(id: nat, body: Body)
      requires id in pending
      modifies this
      ensures Snapshot() == Answer(old(Snapshot()), id, body)
    {
      match body
      case Ambiguous => Invalidate(FailureOf(AmbiguousResponse));
      case BadError => Invalidate(FailureOf(InvalidStructuredError));
      case StructuredError(error, retryable) => SettlePending(id, WorkerErrorFor(pending[id], error, retryable));
      case Value(value) => SettlePending(id, Resolved(value));
    }
  }
}
