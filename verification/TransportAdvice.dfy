/** What a promise that ends is told about the write and about trying again, and what the parser is given:
    over every history, in terms of the trace alone. */
module TransportAdvice {
  import opened Basics
  import opened TransportTypes
  import opened TransportLog
  import opened TransportModel
  import opened TransportInvariant
  import opened TransportChunking
  import opened TransportRuns
  import opened TransportTheorems
  import opened Framing

  // ---------------------------------------------------------------- the law of one entry

  /** A line without the carriage return that may end it. */
  predicate Parsed(parse: Parser, line: Bytes, reply: Reply) {
    if line != [] && line[|line| - 1] == 13 then reply == parse(line[..|line| - 1]) else reply == parse(line)
  }

  /** What is said of a body, written or not, and the advice that comes with it. */
  predicate Says(x: Execution, written: bool, advice: Retry) {
    x.requestDispatched == written && x.writeOutcome == (if written then Unknown else NotStarted) && x.retry == advice
  }

  predicate SaysRetryable(last: Option<Reply>) {
    last.Some? && last.value.Envelope? && last.value.body.StructuredError? && last.value.body.retryable
  }

  /** Failures a retry as such cannot help with. */
  predicate AsksForChange(code: Code) {
    code in {InvalidTimeout, EncodeFailed, RequestTooLarge, OutputTooLarge, MalformedOutput, InvalidEnvelope,
             InvalidProtocol, UnknownResponseId, AmbiguousResponse, InvalidStructuredError}
  }

  function Advice(code: Code): Retry {
    if code.AuthoritativeOutcomeUnknown? then ReconcileFirst
    else if AsksForChange(code) then AfterChange else SafeNow
  }

  /** The report fits a body written or not, and the request's kind. */
  predicate Fits(a: Audit, id: nat, o: Outcome, written: bool) {
    match o
    case Resolved(_) => true
    case WorkerError(_, x) =>
      Says(x, written, if id in a.accepted && a.accepted[id] then ReconcileFirst
                       else if SaysRetryable(a.last) then SafeNow else AfterChange)
    case Unavailable(code, x) =>
      Says(x, written, Advice(code)) && (id in a.accepted ==> !code.AuthoritativeOutcomeUnknown?)
    case OutcomeUnknown(_, x) => written && Says(x, true, ReconcileFirst)
  }

  /** A body handed to a child that failed to start was not handed to anybody. */
  predicate Reached(a: Audit, code: Code, id: nat) {
    id in a.written && !(code.SpawnFailed? && !a.started)
  }

  /** What a call turned away by an unusable transport is told. */
  predicate RepeatsCause(a: Audit, cause: Option<Code>, o: Outcome) {
    cause.Some? ==> o.Unavailable? && o.code == if a.unknown then AuthoritativeOutcomeUnknown else cause.value
  }

  predicate Right(parse: Parser, a: Audit, cause: Option<Code>, e: Entry) {
    match e
    case Received(line, reply) => Parsed(parse, line, reply)
    case Settled(id, o) => Fits(a, id, o, id in a.written) && (id !in a.accepted ==> RepeatsCause(a, cause, o))
    case Poisoned(code, rejected) => forall id | id in rejected :: Fits(a, id, rejected[id], Reached(a, code, id))
    case _ => true
  }

  /** The code of the poisoning, if there was one. */
  function Cause(t: seq<Entry>): Option<Code> {
    if t == [] then None else if Last(t).Poisoned? then Some(Last(t).code) else Cause(Front(t))
  }

  predicate AllRight(parse: Parser, t: seq<Entry>) {
    t == [] || (AllRight(parse, Front(t)) && Right(parse, AuditOf(Front(t)), Cause(Front(t)), Last(t)))
  }

  // ---------------------------------------------------------------- the law of a state

  /** The failure kept is the one the poisoning told. */
  predicate Caused(s: State) {
    && s.failure == (match Cause(s.trace) case None => None case Some(code) => Some(FailureOf(code)))
    && Cause(s.trace) != Some(AuthoritativeOutcomeUnknown)
  }

  ghost predicate Reporting(parse: Parser, s: State) {
    Audited(s) && AllRight(parse, s.trace) && Caused(s)
  }

  lemma SameReporting(parse: Parser, s: State, t: State)
    requires Reporting(parse, s) && t.trace == s.trace && t.audit == s.audit && t.failure == s.failure
    ensures Reporting(parse, t)
  {
  }

  lemma NoteReporting(parse: Parser, s: State, t: State, e: Entry)
    requires Reporting(parse, s) && t.trace == s.trace + [e] && t.audit == Note(s.audit, e)
    requires !e.Poisoned? && t.failure == s.failure && Right(parse, s.audit, Cause(s.trace), e)
    ensures Reporting(parse, t)
  {
    Snoc(s.trace, e);
  }

  /** Before anything ends: a pending body counts as dispatched exactly if it is taken for written. */
  ghost predicate Agreed(s: State, code: Code) {
    forall id | id in s.pending :: PendingAgrees(s.pending[id], id, s.audit)
                                   && (s.pending[id].dispatched <==> Reached(s.audit, code, id))
  }

  lemma RejectionFitsWrite(a: Audit, p: Pending, id: nat, code: Code)
    requires PendingAgrees(p, id, a) && (p.dispatched <==> Reached(a, code, id)) && !code.AuthoritativeOutcomeUnknown?
    ensures Fits(a, id, FailureForPending(p, FailureOf(code)), Reached(a, code, id))
  {
  }

  lemma PoisonReports(parse: Parser, s: State, code: Code)
    requires Reporting(parse, s) && (!s.cleaned ==> Agreed(s, code)) && !code.AuthoritativeOutcomeUnknown?
    ensures Reporting(parse, Poison(s, code))
  {
    if !s.cleaned {
      var e := Poisoned(code, Rejections(s.pending, FailureOf(code)));
      forall id | id in s.pending { RejectionFitsWrite(s.audit, s.pending[id], id, code); }
      Snoc(s.trace, e);
    }
  }

  /** While the child has not failed to spawn, dispatched says written. */
  lemma AgreedWhileUsable(s: State, code: Code)
    requires Books(s) && Reports(s) && !s.spawnFailed && (code.SpawnFailed? ==> s.childStarted)
    ensures Agreed(s, code)
  {
  }

  lemma UsableReports(parse: Parser, s: State, code: Code)
    requires Reporting(parse, s) && Books(s) && Reports(s) && (s.spawnFailed ==> s.cleaned)
    requires !code.AuthoritativeOutcomeUnknown? && !code.SpawnFailed?
    ensures Reporting(parse, Poison(s, code))
  {
    if !s.cleaned { AgreedWhileUsable(s, code); }
    PoisonReports(parse, s, code);
  }

  // ---------------------------------------------------------------- writes

  lemma FlushReports(parse: Parser, s: State, w: WriteResult)
    requires Core(s) && (s.spawnFailed ==> s.cleaned) && Reporting(parse, s)
    ensures Reporting(parse, Flush(s, w))
  {
    if CanWrite(s) {
      var d := Dispatch(s);
      NoteReporting(parse, s, d, Wrote(s.queue[0].id));
      DispatchBooks(s);
      DispatchReports(s);
      ThrownReports(parse, d);
    }
  }

  lemma ThrownReports(parse: Parser, d: State)
    requires Reporting(parse, d) && Books(d) && Reports(d) && (d.spawnFailed ==> d.cleaned)
    ensures Reporting(parse, Poison(d.(writing := false, inFlight := 0), RequestWriteFailed))
  {
    UsableReports(parse, d.(writing := false, inFlight := 0), RequestWriteFailed);
  }

  lemma WriteDoneReports(parse: Parser, s: State, ok: bool, w: WriteResult)
    requires Inv(s) && Reporting(parse, s)
    ensures Reporting(parse, WriteDone(s, ok, w))
  {
    if s.inFlight != 0 {
      var t := Landed(s, ok);
      LandedKeeps(s, ok);
      SameReporting(parse, s, t);
      if ok { FlushReports(parse, t, w); } else { UsableReports(parse, t, RequestWriteFailed); }
    }
  }

  // ---------------------------------------------------------------- request

  lemma TurnAwayReports(parse: Parser, s: State, o: Outcome)
    requires Reporting(parse, s) && Books(s) && o.Unavailable? && Says(o.execution, false, Advice(o.code))
    requires RepeatsCause(s.audit, Cause(s.trace), o)
    ensures Reporting(parse, TurnAway(s, o))
  {
    NoteReporting(parse, s, TurnAway(s, o), Settled(s.nextId, o));
  }

  lemma AfterFailureIsTold(s: State, definitive: bool)
    requires Books(s) && Caused(s) && s.failure.Some?
    ensures var o := UnavailableAfterFailure(s, definitive);
            && o.Unavailable? && Says(o.execution, false, Advice(o.code)) && RepeatsCause(s.audit, Cause(s.trace), o)
  {
  }

  lemma AcceptReports(parse: Parser, s: State, r: RequestArgs)
    requires Inv(s) && Reporting(parse, s) && !s.cleaned && Refusal(s, r).None?
    ensures Reporting(parse, Accept(s, r))
  {
    var t := Register(s, r);
    NoteReporting(parse, s, t, Accepted(s.nextId, r.definitive));
    if !s.child && !r.spawns {
      RegisterKeeps(s, r);
      assert s.nextId !in s.audit.written;
      PoisonReports(parse, t, SpawnFailed);
    } else {
      AdmitBooks(s, r);
      AdmitQueues(s, r);
      AdmitAbandonment(s, r);
      AdmitReports(s, r);
      SameReporting(parse, t, Admit(s, r));
      FlushReports(parse, Admit(s, r), r.write);
    }
  }

  lemma RefusalIsTold(s: State, r: RequestArgs)
    requires Caused(s) && s.failure.None? && Refusal(s, r).Some?
    ensures var o := UnavailableFor(Fresh(r.definitive, false), FailureOf(Refusal(s, r).value));
            && o.Unavailable? && Says(o.execution, false, Advice(o.code)) && RepeatsCause(s.audit, Cause(s.trace), o)
  {
  }

  lemma RequestReports(parse: Parser, s: State, r: RequestArgs)
    requires Inv(s) && Reporting(parse, s)
    ensures Reporting(parse, Request(s, r))
  {
    if !r.methodGiven {
    } else if s.failure.Some? {
      AfterFailureIsTold(s, r.definitive);
      TurnAwayReports(parse, s, UnavailableAfterFailure(s, r.definitive));
    } else if Refusal(s, r).Some? {
      RefusalIsTold(s, r);
      TurnAwayReports(parse, s, UnavailableFor(Fresh(r.definitive, false), FailureOf(Refusal(s, r).value)));
    } else {
      AcceptReports(parse, s, r);
    }
  }

  // ---------------------------------------------------------------- one promise ends

  lemma SettleReporting(parse: Parser, s: State, t: State, id: nat, o: Outcome)
    requires Reporting(parse, s) && Reporting(parse, t) && t.audit == s.audit && id in s.audit.accepted
    requires Fits(s.audit, id, o, id in s.audit.written)
    ensures Reporting(parse, Settle(t, id, o))
  {
    NoteReporting(parse, t, Settle(t, id, o), Settled(id, o));
  }

  lemma UnavailableFits(a: Audit, p: Pending, id: nat, code: Code)
    requires PendingAgrees(p, id, a) && (p.dispatched <==> id in a.written) && (p.dispatched ==> !p.definitive)
    requires !code.AuthoritativeOutcomeUnknown?
    ensures Fits(a, id, UnavailableFor(p, FailureOf(code)), id in a.written)
  {
  }

  lemma CancelReports(parse: Parser, s: State, id: nat, code: Code, w: WriteResult)
    requires Inv(s) && Reporting(parse, s) && id in s.pending && !s.pending[id].dispatched
    requires !code.AuthoritativeOutcomeUnknown?
    ensures Reporting(parse, CancelQueued(s, id, UnavailableFor(s.pending[id], FailureOf(code)), w))
  {
    var i, o := IndexOf(s.queue, id), UnavailableFor(s.pending[id], FailureOf(code));
    CancelCases(s, id, o, w);
    if i < |s.queue| {
      AgreedWhileUsable(s, RequestCancelled);
      UnavailableFits(s.audit, s.pending[id], id, code);
      SameReporting(parse, s, Unqueue(s, i));
      SettleReporting(parse, s, Unqueue(s, i), id, o);
      WithdrawKeeps(s, i, FailureOf(code));
      FlushReports(parse, Withdraw(s, i, o), w);
    }
  }

  lemma AbandonReports(parse: Parser, s: State, id: nat, code: Code)
    requires Inv(s) && Reporting(parse, s) && id in s.pending && s.pending[id].dispatched && !s.pending[id].definitive
    requires !code.AuthoritativeOutcomeUnknown?
    ensures Reporting(parse, Abandon(s, id, FailureOf(code)))
  {
    if s.pending[id].writeCompleted {
      var o, t := UnavailableFor(s.pending[id], FailureOf(code)), s.(abandoned := Remember(s.abandoned, id));
      UnavailableFits(s.audit, s.pending[id], id, code);
      SameReporting(parse, s, t);
      SettleReporting(parse, s, t, id, o);
    }
  }

  lemma AbortReports(parse: Parser, s: State, id: nat, w: WriteResult)
    requires Inv(s) && Reporting(parse, s)
    ensures Reporting(parse, Abort(s, id, w))
  {
    if id in s.pending && s.pending[id].signal {
      var p := s.pending[id];
      if !p.dispatched {
        CancelReports(parse, s, id, RequestCancelled, w);
      } else if p.definitive {
      } else if p.writeCompleted {
        AbandonReports(parse, s, id, RequestCancelled);
      } else {
        UsableReports(parse, s, RequestCancelled);
        assert Abort(s, id, w) == Poison(s, RequestCancelled);
      }
    }
  }

  lemma TimedOutReports(parse: Parser, s: State, id: nat, w: WriteResult)
    requires Inv(s) && Reporting(parse, s)
    ensures Reporting(parse, TimedOut(s, id, w))
  {
    if id in s.pending {
      if !s.pending[id].dispatched {
        CancelReports(parse, s, id, RequestTimeout, w);
      } else {
        UsableReports(parse, s, RequestTimeout);
        assert TimedOut(s, id, w) == Poison(s, RequestTimeout);
      }
    }
  }

  // ---------------------------------------------------------------- responses

  lemma ErrorFits(a: Audit, p: Pending, id: nat, error: Payload, retryable: bool)
    requires PendingAgrees(p, id, a) && (p.dispatched <==> id in a.written)
    requires a.last == Some(Envelope(id, StructuredError(error, retryable)))
    ensures Fits(a, id, WorkerErrorFor(p, error, retryable), id in a.written)
  {
  }

  lemma FaultReports(parse: Parser, s: State, line: Bytes, reply: Reply, code: Code)
    requires Steady(s) && !s.cleaned && Reporting(parse, Take(s, line, reply)) && ResponseFault(code)
    ensures Reporting(parse, Poison(Take(s, line, reply), code))
  {
    TakeKeeps(s, line, reply);
    UsableReports(parse, Take(s, line, reply), code);
  }

  lemma AnswerReports(parse: Parser, s: State, line: Bytes, reply: Reply)
    requires Steady(s) && !s.cleaned && Reporting(parse, Take(s, line, reply))
    requires reply.Envelope? && reply.id in s.pending
    ensures Reporting(parse, Answer(Take(s, line, reply), reply.id, reply.body))
  {
    var t := Take(s, line, reply);
    match reply.body
    case Ambiguous => FaultReports(parse, s, line, reply, AmbiguousResponse);
    case BadError => FaultReports(parse, s, line, reply, InvalidStructuredError);
    case StructuredError(e, retryable) =>
      AgreedWhileUsable(s, RequestCancelled);
      ErrorFits(t.audit, s.pending[reply.id], reply.id, e, retryable);
      SettleReporting(parse, t, t, reply.id, WorkerErrorFor(s.pending[reply.id], e, retryable));
    case Value(v) => SettleReporting(parse, t, t, reply.id, Resolved(v));
  }

  lemma RespondReports(parse: Parser, s: State, line: Bytes, reply: Reply)
    requires Steady(s) && !s.cleaned && Reporting(parse, Take(s, line, reply))
    ensures Reporting(parse, Respond(Take(s, line, reply), reply))
  {
    if !reply.Envelope? {
      FaultReports(parse, s, line, reply, EnvelopeFault(reply));
    } else if reply.id in s.pending {
      AnswerReports(parse, s, line, reply);
    } else if reply.id in s.abandoned {
      SameReporting(parse, Take(s, line, reply), Absorb(Take(s, line, reply), reply.id));
    } else {
      FaultReports(parse, s, line, reply, UnknownResponseId);
    }
  }

  /** The bytes a line is parsed from. */
  lemma StripIsParsed(parse: Parser, line: Bytes)
    ensures Parsed(parse, line, parse(StripCarriageReturn(line)))
  {
  }

  lemma LineReports(parse: Parser, s: State, line: Bytes)
    requires Steady(s) && !s.cleaned && Reporting(parse, s)
    ensures Reporting(parse, DeliverLine(parse, s, line))
  {
    if |line| > MAX_STDOUT_LINE_BYTES {
      UsableReports(parse, s, OutputTooLarge);
    } else {
      var reply := parse(StripCarriageReturn(line));
      StripIsParsed(parse, line);
      NoteReporting(parse, s, Take(s, line, reply), Received(line, reply));
      RespondReports(parse, s, line, reply);
    }
  }

  lemma LineSteady(parse: Parser, s: State, line: Bytes)
    requires Steady(s) && !s.cleaned
    ensures Steady(DeliverLine(parse, s, line))
  {
    if |line| > MAX_STDOUT_LINE_BYTES { PoisonKeeps(s, OutputTooLarge); } else { HandleLineKeeps(parse, s, line); }
  }

  lemma {:induction false} DeliverReports(parse: Parser, s: State, lines: seq<Bytes>, rest: Bytes)
    requires Steady(s) && Reporting(parse, s)
    ensures Reporting(parse, Deliver(parse, s, lines, rest))
    decreases |lines|
  {
    if !s.cleaned {
      if lines == [] {
        UsableReports(parse, s, OutputTooLarge);
      } else {
        LineSteady(parse, s, lines[0]);
        LineReports(parse, s, lines[0]);
        DeliverReports(parse, DeliverLine(parse, s, lines[0]), lines[1..], rest);
      }
    }
  }

  lemma BareReporting(parse: Parser, s: State)
    ensures Reporting(parse, Bare(s)) <==> Reporting(parse, s)
  {
  }

  lemma StdoutReports(parse: Parser, s: State, chunk: Bytes)
    requires Inv(s) && Reporting(parse, s)
    ensures Reporting(parse, Stdout(parse, s, chunk))
  {
    var t := Stdout(parse, s, chunk);
    BareReporting(parse, s);
    BareReporting(parse, t);
    if s.cleaned {
      StdoutInert(parse, s, chunk);
    } else {
      StdoutDelivers(parse, s, chunk);
      RebufferKeeps(s, []);
      DeliverReports(parse, Bare(s), Lines(s.buffer + chunk), Rest(s.buffer + chunk));
    }
  }

  // ---------------------------------------------------------------- the child's life

  lemma ChildErrorReports(parse: Parser, s: State)
    requires Inv(s) && Reporting(parse, s)
    ensures Reporting(parse, ChildError(s))
  {
    if s.child && s.childStarted {
      AgreedWhileUsable(s, SpawnFailed);
      PoisonReports(parse, s, SpawnFailed);
    } else if s.child {
      SameReporting(parse, s, Recalled(s));
      RecalledKeeps(s);
      PoisonReports(parse, Recalled(s), SpawnFailed);
    }
  }

  lemma ChildCloseReports(parse: Parser, s: State)
    requires Inv(s) && Reporting(parse, s)
    ensures Reporting(parse, ChildClose(s))
  {
    if s.child {
      SameReporting(parse, s, Gone(s));
      UsableReports(parse, Gone(s), ChildExited);
    }
  }

  lemma CloseReports(parse: Parser, s: State)
    requires Inv(s) && Reporting(parse, s)
    ensures Reporting(parse, Close(s))
  {
    if s.closing.NotRequested? {
      UsableReports(parse, s, Closed);
      UsableReports(parse, s.(closing := Waiting), Closed);
      SameReporting(parse, Poison(s, Closed), Poison(s, Closed).(closing := ExitConfirmed));
    }
  }

  lemma SpawnedReports(parse: Parser, s: State)
    requires Reporting(parse, s)
    ensures Reporting(parse, Spawned(s))
  {
    if s.child && !s.spawnFailed { NoteReporting(parse, s, Spawned(s), Started); }
  }

  // ---------------------------------------------------------------- every event, every history

  lemma PipeReports(parse: Parser, s: State, e: Event)
    requires Inv(s) && Reporting(parse, s) && FromPipes(e)
    ensures Reporting(parse, Step(parse, s, e))
  {
    match e
    case EvWriteDone(ok, w) => WriteDoneReports(parse, s, ok, w);
    case EvDrain(w) => FlushReports(parse, s.(blocked := false), w);
    case EvStdout(chunk) => if s.child { StdoutReports(parse, s, chunk); }
    case EvStdinError => UsableReports(parse, s, RequestWriteFailed);
    case EvStdoutError => UsableReports(parse, s, ResponseReadFailed);
  }

  lemma StepReports(parse: Parser, s: State, e: Event)
    requires Inv(s) && Reporting(parse, s)
    ensures Reporting(parse, Step(parse, s, e))
  {
    match e
    case EvRequest(r) => RequestReports(parse, s, r);
    case EvAbort(id, w) => AbortReports(parse, s, id, w);
    case EvTimeout(id, w) => TimedOutReports(parse, s, id, w);
    case EvSpawned => SpawnedReports(parse, s);
    case EvChildError => ChildErrorReports(parse, s);
    case EvChildClose => ChildCloseReports(parse, s);
    case EvClose => CloseReports(parse, s);
    case EvShutdownDeadline => SameReporting(parse, s, ShutdownDeadline(s));
    case _ => PipeReports(parse, s, e);
  }

  lemma {:induction false} RunReports(parse: Parser, events: seq<Event>)
    ensures Reporting(parse, Run(parse, events))
  {
    if events != [] {
      RunReports(parse, Front(events));
      RunKeeps(parse, Front(events));
      StepReports(parse, Run(parse, Front(events)), Last(events));
    }
  }

  // ---------------------------------------------------------------- the theorems

  lemma {:induction false} RightAt(parse: Parser, t: seq<Entry>, k: nat)
    requires AllRight(parse, t) && k < |t|
    ensures Right(parse, AuditOf(t[..k]), Cause(t[..k]), t[k])
  {
    if k == |t| - 1 {
      assert t[..k] == Front(t);
    } else {
      RightAt(parse, Front(t), k);
      assert Front(t)[..k] == t[..k];
    }
  }

  /** The parser is given each line without the carriage return that may end it, and nothing else cut off. */
  lemma LinesAreParsedWhole(parse: Parser, events: seq<Event>, k: nat)
    requires k < |Run(parse, events).trace| && Run(parse, events).trace[k].Received?
    ensures var e := Run(parse, events).trace[k];
            && (e.line == [] || e.line[|e.line| - 1] != 13 ==> e.reply == parse(e.line))
            && (e.line != [] && e.line[|e.line| - 1] == 13 ==> e.reply == parse(e.line[..|e.line| - 1]))
  {
    RunReports(parse, events);
    RightAt(parse, Run(parse, events).trace, k);
  }

  /** A body is taken for dispatched: it was written, and not to a child that failed to start. */
  ghost predicate TakenForDispatched(t: seq<Entry>, k: nat, id: nat)
    requires k < |t|
  {
    WrittenIn(t[..k], id) && !(t[k].Poisoned? && t[k].code.SpawnFailed? && !StartedIn(t[..k]))
  }

  lemma FitsSaysWritten(a: Audit, id: nat, o: Outcome, written: bool)
    requires Fits(a, id, o, written) && !o.Resolved?
    ensures o.execution.requestDispatched == written && o.execution.writeOutcome.NotStarted? == !written
  {
  }

  lemma EndFits(parse: Parser, a: Audit, cause: Option<Code>, e: Entry, id: nat)
    requires Right(parse, a, cause, e) && id in Ends(e)
    ensures Fits(a, id, Ends(e)[id], if e.Poisoned? then Reached(a, e.code, id) else id in a.written)
  {
  }

  /** Whatever a promise ends with but a result says rightly whether its body was handed over. */
  lemma WriteIsToldRight(parse: Parser, events: seq<Event>, k: nat, id: nat)
    requires k < |Run(parse, events).trace| && id in Ends(Run(parse, events).trace[k])
    requires !Ends(Run(parse, events).trace[k])[id].Resolved?
    ensures var t := Run(parse, events).trace;
            var x := Ends(t[k])[id].execution;
            && (x.requestDispatched <==> TakenForDispatched(t, k, id))
            && (x.writeOutcome.NotStarted? <==> !TakenForDispatched(t, k, id))
  {
    var t := Run(parse, events).trace;
    var a := AuditOf(t[..k]);
    RunReports(parse, events);
    RightAt(parse, t, k);
    EndFits(parse, a, Cause(t[..k]), t[k], id);
    AuditKnows(t[..k], id);
    AuditKnowsStart(t[..k]);
    FitsSaysWritten(a, id, Ends(t[k])[id], if t[k].Poisoned? then Reached(a, t[k].code, id) else id in a.written);
  }

  /** The advice of an accepted request's end: reconcile first when its outcome is unknown; as the failure's
      code says when it is unavailable; and after the worker's error reconcile first exactly when definitive,
      and otherwise try again exactly when the reply just read says so. */
  lemma AdviceIsRight(parse: Parser, events: seq<Event>, k: nat, id: nat)
    requires k < |Run(parse, events).trace| && id in Ends(Run(parse, events).trace[k])
    requires AcceptedIn(Run(parse, events).trace[..k], id)
    ensures var t := Run(parse, events).trace;
            match Ends(t[k])[id]
            case Resolved(_) => true
            case OutcomeUnknown(_, x) => x.retry.ReconcileFirst? && DefinitiveIn(t[..k], id)
            case Unavailable(code, x) => x.retry == if AsksForChange(code) then AfterChange else SafeNow
            case WorkerError(e, x) =>
              && k > 0 && t[k - 1].Received? && t[k - 1].reply.Envelope? && t[k - 1].reply.body.StructuredError?
              && (x.retry.ReconcileFirst? <==> DefinitiveIn(t[..k], id))
              && (!DefinitiveIn(t[..k], id) ==> (x.retry.SafeNow? <==> t[k - 1].reply.body.retryable))
  {
    var t := Run(parse, events).trace;
    RunReports(parse, events);
    RunTellsTheTruth(parse, events);
    TruthfulAt(t, k);
    RightAt(parse, t, k);
    AuditKnows(t[..k], id);
    AuditKnowsDefinitive(t[..k], id);
    if Ends(t[k])[id].WorkerError? {
      SweepIsNotTheWorkers(AuditOf(t[..k]), t[k], id);
      ResultIsTheWorkers(t, k);
      LastReceived(t[..k]);
    }
  }

  lemma NoteKnowsPoison(a: Audit, e: Entry)
    ensures Note(a, e).poisoned <==> a.poisoned || e.Poisoned?
  {
    match e
    case Accepted(_, _) =>
    case Wrote(_) =>
    case Started =>
    case Received(_, _) =>
    case Poisoned(_, _) =>
    case Settled(_, _) =>
  }

  lemma {:induction false} AuditKnowsPoison(t: seq<Entry>)
    ensures AuditOf(t).poisoned <==> Cause(t).Some?
  {
    if t != [] {
      AuditKnowsPoison(Front(t));
      NoteKnowsPoison(AuditOf(Front(t)), Last(t));
    }
  }

  lemma {:induction false} WrittenWereAccepted(t: seq<Entry>, id: nat)
    requires Truthful(t) && id in AuditOf(t).written
    ensures id in AuditOf(t).accepted
  {
    var a := AuditOf(Front(t));
    NeverForgiven(a, Last(t));
    NoteKnows(a, Last(t), id);
    if id in a.written { WrittenWereAccepted(Front(t), id); } else { WrittenIsAccepted(a, id); }
  }

  lemma TurnedAway(a: Audit, cause: Option<Code>, id: nat, o: Outcome)
    requires Fits(a, id, o, false) && cause.Some? && RepeatsCause(a, cause, o)
    requires cause != Some(AuthoritativeOutcomeUnknown)
    ensures o.Unavailable? && !o.execution.requestDispatched && o.execution.writeOutcome.NotStarted?
    ensures o.code == if a.unknown then AuthoritativeOutcomeUnknown else cause.value
    ensures o.execution.retry.ReconcileFirst? <==> a.unknown
  {
  }

  /** A poisoning never has the code kept for later calls. */
  lemma CauseIsPlain(parse: Parser, events: seq<Event>, k: nat)
    requires k <= |Run(parse, events).trace|
    ensures Cause(Run(parse, events).trace[..k]) != Some(AuthoritativeOutcomeUnknown)
  {
    var t := Run(parse, events).trace;
    RunReports(parse, events);
    RunTellsTheTruth(parse, events);
    if Cause(t[..k]).Some? { CauseStays(t, k); }
  }

  lemma {:induction false} CauseStays(t: seq<Entry>, k: nat)
    requires Truthful(t) && k <= |t| && Cause(t[..k]).Some?
    ensures Cause(t) == Cause(t[..k])
  {
    if k == |t| {
      assert t[..k] == t;
    } else {
      NeverForgiven(AuditOf(Front(t)), Last(t));
      assert Front(t)[..k] == t[..k];
      CauseStays(Front(t), k);
      AuditKnowsPoison(Front(t));
    }
  }

  ghost predicate LeftUnknownIn(t: seq<Entry>) {
    exists j :: 0 <= j < |t| && LeftUnknown(t[j])
  }

  /** A call on an unusable transport is told the cause of its poisoning, or, when that left a definitive
      request unknown, that an outcome is unknown and to be reconciled first. */
  lemma LaterCallsRepeatTheCause(parse: Parser, events: seq<Event>, k: nat)
    requires k < |Run(parse, events).trace| && Run(parse, events).trace[k].Settled?
    requires Cause(Run(parse, events).trace[..k]).Some?
    ensures var t := Run(parse, events).trace;
            var o, unknown := t[k].outcome, LeftUnknownIn(t[..k]);
            && o.Unavailable? && !o.execution.requestDispatched && o.execution.writeOutcome.NotStarted?
            && o.code == (if unknown then AuthoritativeOutcomeUnknown else Cause(t[..k]).value)
            && (o.execution.retry.ReconcileFirst? <==> unknown)
  {
    var t := Run(parse, events).trace;
    RunReports(parse, events);
    RunTellsTheTruth(parse, events);
    TruthfulAt(t, k);
    RightAt(parse, t, k);
    AuditKnowsUnknown(t[..k]);
    AuditKnowsPoison(t[..k]);
    CauseIsPlain(parse, events, k);
    NeverWritten(t[..k], t[k]);
    TurnedAway(AuditOf(t[..k]), Cause(t[..k]), t[k].id, t[k].outcome);
  }

  lemma NeverWritten(t: seq<Entry>, e: Entry)
    requires Truthful(t) && AuditOf(t).poisoned && e.Settled? && Note(AuditOf(t), e).truthful
    ensures e.id !in AuditOf(t).accepted && e.id !in AuditOf(t).written
  {
    if e.id in AuditOf(t).written { WrittenWereAccepted(t, e.id); }
  }
}
