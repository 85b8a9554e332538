/** The promises of the transport, over every history of events. */
module TransportTheorems {
  import opened Basics
  import opened TransportTypes
  import opened TransportLog
  import opened TransportModel
  import opened TransportInvariant
  import opened TransportRuns

  // ---------------------------------------------------------------- the audit in plain terms

  ghost predicate AcceptedIn(t: seq<Entry>, id: nat) {
    exists k :: 0 <= k < |t| && t[k].Accepted? && t[k].id == id
  }

  ghost predicate WrittenIn(t: seq<Entry>, id: nat) {
    exists k :: 0 <= k < |t| && t[k] == Wrote(id)
  }

  ghost predicate EndedIn(t: seq<Entry>, id: nat) {
    exists k :: 0 <= k < |t| && id in Ends(t[k])
  }

  predicate Answers(e: Entry, id: nat) {
    e.Received? && e.reply.Envelope? && e.reply.id == id
  }

  ghost predicate AnsweredIn(t: seq<Entry>, id: nat) {
    exists k :: 0 <= k < |t| && Answers(t[k], id)
  }

  lemma NoteKnowsAnswer(a: Audit, e: Entry, id: nat)
    ensures id in Note(a, e).answered <==> id in a.answered || Answers(e, id)
  {
    match e
    case Accepted(_, _) =>
    case Wrote(_) =>
    case Started =>
    case Received(_, _) =>
    case Poisoned(_, _) =>
    case Settled(_, _) =>
  }

  lemma NoteKnowsEnd(a: Audit, e: Entry, id: nat)
    ensures id in Note(a, e).settled <==> id in a.settled || id in Ends(e)
  {
    match e
    case Accepted(_, _) =>
    case Wrote(_) =>
    case Started =>
    case Received(_, _) =>
    case Poisoned(_, _) =>
    case Settled(_, _) =>
  }

  lemma InStep(t: seq<Entry>, id: nat)
    requires t != []
    ensures AcceptedIn(t, id) <==> AcceptedIn(Front(t), id) || (Last(t).Accepted? && Last(t).id == id)
    ensures WrittenIn(t, id) <==> WrittenIn(Front(t), id) || Last(t) == Wrote(id)
    ensures AnsweredIn(t, id) <==> AnsweredIn(Front(t), id) || Answers(Last(t), id)
    ensures EndedIn(t, id) <==> EndedIn(Front(t), id) || id in Ends(Last(t))
  {
    assert forall k :: 0 <= k < |t| - 1 ==> Front(t)[k] == t[k];
  }

  /** What the auditor remembers of an id is what is in the trace. */
  lemma {:induction false} AuditKnows(t: seq<Entry>, id: nat)
    ensures id in AuditOf(t).accepted <==> AcceptedIn(t, id)
    ensures id in AuditOf(t).written <==> WrittenIn(t, id)
    ensures id in AuditOf(t).answered <==> AnsweredIn(t, id)
    ensures id in AuditOf(t).settled <==> EndedIn(t, id)
  {
    if t != [] {
      AuditKnows(Front(t), id);
      InStep(t, id);
      NoteKnows(AuditOf(Front(t)), Last(t), id);
      NoteKnowsAnswer(AuditOf(Front(t)), Last(t), id);
      NoteKnowsEnd(AuditOf(Front(t)), Last(t), id);
    }
  }

  predicate FalseAt(t: seq<Entry>, k: nat, id: nat, w: nat, b: nat)
    requires k < |t| && w < |t| && b < |t|
  {
    id in Ends(t[k]) && ClaimsNotStarted(Ends(t[k])[id]) && t[w] == Wrote(id) && t[b].Started?
  }

  /** The promise ended with "not started", and yet the body is written to a child that starts. */
  ghost predicate FalselyReported(t: seq<Entry>, id: nat) {
    exists k, w, b :: 0 <= k < |t| && 0 <= w < |t| && 0 <= b < |t| && FalseAt(t, k, id, w, b)
  }

  ghost predicate StartedIn(t: seq<Entry>) {
    exists b :: 0 <= b < |t| && t[b].Started?
  }

  ghost predicate DefinitiveIn(t: seq<Entry>, id: nat) {
    exists k :: 0 <= k < |t| && t[k] == Accepted(id, true)
  }

  lemma NoteKnowsStart(a: Audit, e: Entry)
    ensures Note(a, e).started <==> a.started || e.Started?
  {
    match e
    case Accepted(_, _) =>
    case Wrote(_) =>
    case Started =>
    case Received(_, _) =>
    case Poisoned(_, _) =>
    case Settled(_, _) =>
  }

  lemma {:induction false} AuditKnowsStart(t: seq<Entry>)
    ensures AuditOf(t).started <==> StartedIn(t)
  {
    if t != [] {
      AuditKnowsStart(Front(t));
      NoteKnowsStart(AuditOf(Front(t)), Last(t));
      assert forall b :: 0 <= b < |t| - 1 ==> Front(t)[b] == t[b];
    }
  }

  lemma NoteKnowsDefinitive(a: Audit, e: Entry, id: nat)
    requires Note(a, e).truthful
    ensures (id in Note(a, e).accepted && Note(a, e).accepted[id])
            <==> (id in a.accepted && a.accepted[id]) || e == Accepted(id, true)
  {
    match e
    case Accepted(_, _) =>
    case Wrote(_) =>
    case Started =>
    case Received(_, _) =>
    case Poisoned(_, _) =>
    case Settled(_, _) =>
  }

  lemma {:induction false} AuditKnowsDefinitive(t: seq<Entry>, id: nat)
    requires Truthful(t)
    ensures (id in AuditOf(t).accepted && AuditOf(t).accepted[id]) <==> DefinitiveIn(t, id)
  {
    if t != [] {
      NeverForgiven(AuditOf(Front(t)), Last(t));
      AuditKnowsDefinitive(Front(t), id);
      NoteKnowsDefinitive(AuditOf(Front(t)), Last(t), id);
      assert forall k :: 0 <= k < |t| - 1 ==> Front(t)[k] == t[k];
    }
  }

  /** The worker speaks only when spoken to. */
  ghost predicate OnlySent(t: seq<Entry>) {
    forall j :: 0 <= j < |t| && t[j].Received? && t[j].reply.Envelope? ==> WrittenIn(t[..j], t[j].reply.id)
  }

  /** The worker answers each id it was sent at most once, with well-formed envelopes. */
  ghost predicate FairWorker(t: seq<Entry>) {
    forall j :: 0 <= j < |t| && t[j].Received? ==>
      WellFormed(t[j].reply) && WrittenIn(t[..j], t[j].reply.id) && !AnsweredIn(t[..j], t[j].reply.id)
  }

  lemma {:induction false} OnlySentIsSeen(t: seq<Entry>)
    requires OnlySent(t)
    ensures AuditOf(t).onlySent
  {
    if t != [] {
      assert forall j :: 0 <= j < |t| - 1 ==> Front(t)[j] == t[j] && Front(t)[..j] == t[..j];
      OnlySentIsSeen(Front(t));
      assert t[..|t| - 1] == Front(t);
      if Last(t).Received? && Last(t).reply.Envelope? { AuditKnows(Front(t), Last(t).reply.id); }
    }
  }

  lemma {:induction false} FairWorkerIsSeen(t: seq<Entry>)
    requires FairWorker(t)
    ensures AuditOf(t).fair
  {
    if t != [] {
      assert forall j :: 0 <= j < |t| - 1 ==> Front(t)[j] == t[j] && Front(t)[..j] == t[..j];
      FairWorkerIsSeen(Front(t));
      assert t[..|t| - 1] == Front(t);
      if Last(t).Received? {
        AuditKnows(Front(t), Last(t).reply.id);
      }
    }
  }

  /** A late answer is still owed: the promise ended by itself after the body was written, and the
      worker has not answered. */
  ghost predicate Owed(t: seq<Entry>, id: nat) {
    && (exists k :: 0 <= k < |t| && t[k].Settled? && t[k].id == id && WrittenIn(t[..k], id))
    && !AnsweredIn(t, id)
  }

  lemma NoteKnowsLate(a: Audit, e: Entry, id: nat)
    ensures id in Note(a, e).late
            <==> (id in a.late && !Answers(e, id)) || (e.Settled? && e.id == id && EndsEarly(a, id))
  {
    match e
    case Accepted(_, _) =>
    case Wrote(_) =>
    case Started =>
    case Received(_, _) =>
    case Poisoned(_, _) =>
    case Settled(_, _) =>
  }

  lemma {:induction false} AuditKnowsOwed(t: seq<Entry>, id: nat)
    ensures id in AuditOf(t).late <==> Owed(t, id)
  {
    if t != [] {
      AuditKnowsOwed(Front(t), id);
      AuditKnows(Front(t), id);
      AuditKnows(t, id);
      NoteKnowsLate(AuditOf(Front(t)), Last(t), id);
      OwedStep(t, id);
    }
  }

  lemma OwedStep(t: seq<Entry>, id: nat)
    requires t != []
    ensures AnsweredIn(t, id) <==> AnsweredIn(Front(t), id) || Answers(Last(t), id)
    ensures Owed(t, id)
            <==> !AnsweredIn(t, id)
                 && (Owed(Front(t), id) || (Last(t).Settled? && Last(t).id == id && WrittenIn(Front(t), id)))
  {
    var f := Front(t);
    assert forall k :: 0 <= k < |f| ==> f[k] == t[k] && f[..k] == t[..k];
    assert t[..|t| - 1] == f;
  }

  /** At no moment were more than 1024 late answers owed. */
  ghost predicate WithinBound(t: seq<Entry>) {
    forall k :: 0 <= k <= |t| ==> |AuditOf(t[..k]).late| <= MAX_PENDING
  }

  lemma NoteKnowsBound(a: Audit, e: Entry)
    requires a.bounded && |Note(a, e).late| <= MAX_PENDING
    ensures Note(a, e).bounded
  {
    match e
    case Accepted(_, _) =>
    case Wrote(_) =>
    case Started =>
    case Received(_, _) =>
    case Poisoned(_, _) =>
    case Settled(_, _) =>
  }

  lemma {:induction false} WithinBoundIsSeen(t: seq<Entry>)
    requires WithinBound(t)
    ensures AuditOf(t).bounded
  {
    if t != [] {
      assert t[..|t|] == t;
      assert forall k :: 0 <= k <= |t| - 1 ==> Front(t)[..k] == t[..k];
      WithinBoundIsSeen(Front(t));
      NoteKnowsBound(AuditOf(Front(t)), Last(t));
    }
  }

  /** The entry is no poisoning that blames a worker fair and within the bound so far. */
  predicate Spares(a: Audit, e: Entry) {
    e.Poisoned? && a.fair && a.bounded ==> !ResponseFault(e.code)
  }

  lemma BlamelessFront(t: seq<Entry>)
    requires AuditOf(t).blameless && t != []
    ensures AuditOf(Front(t)).blameless && Spares(AuditOf(Front(t)), Last(t))
  {
    match Last(t)
    case Accepted(_, _) =>
    case Wrote(_) =>
    case Started =>
    case Received(_, _) =>
    case Poisoned(_, _) =>
    case Settled(_, _) =>
  }

  lemma {:induction false} BlamelessAt(t: seq<Entry>, k: nat)
    requires AuditOf(t).blameless && k < |t|
    ensures Spares(AuditOf(t[..k]), t[k])
  {
    BlamelessFront(t);
    if k == |t| - 1 {
      assert t[..k] == Front(t);
    } else {
      BlamelessAt(Front(t), k);
      assert Front(t)[..k] == t[..k];
    }
  }

  // ---------------------------------------------------------------- over every history

  lemma RunTellsTheTruth(parse: Parser, events: seq<Event>)
    ensures Truthful(Run(parse, events).trace)
  {
    RunIsFramed(parse, events);
    RunKeeps(parse, events);
  }

  /** A request that is written to a child that starts, whatever comes first, is reported as not started
      if and only if the worker answered it with an error before it was written; when it is definitive,
      it ends with the worker's result, the worker's error, or "unknown, reconcile first". */
  lemma HandedOverEndsTruly(parse: Parser, events: seq<Event>, end: nat, id: nat, written: nat, started: nat)
    requires var t := Run(parse, events).trace;
             && end < |t| && written < |t| && started < |t|
             && id in Ends(t[end]) && t[written] == Wrote(id) && t[started].Started?
    ensures var t := Run(parse, events).trace;
            && (ClaimsNotStarted(Ends(t[end])[id])
                <==> t[end].Settled? && t[end].outcome.WorkerError? && end < written)
            && (ClaimsNotStarted(Ends(t[end])[id]) ==> end > 0 && Answers(t[end - 1], id))
            && ((exists k :: 0 <= k < |t| && t[k] == Accepted(id, true)) ==> Authoritative(Ends(t[end])[id]))
  {
    var t := Run(parse, events).trace;
    RunTellsTheTruth(parse, events);
    if ClaimsNotStarted(Ends(t[end])[id]) {
      NotStartedIsTrue(t, end, id, written, started);
    } else if t[end].Settled? && t[end].outcome.WorkerError? && end < written {
      EarlyErrorClaims(t, end, written);
    }
    if k: nat :| k < |t| && t[k] == Accepted(id, true) {
      DefinitiveIsAuthoritative(t, end, id, k, written, started);
    }
  }

  lemma NotFalselyAt(t: seq<Entry>, k: nat, id: nat, w: nat, b: nat)
    requires Truthful(t) && OnlySent(t) && k < |t| && w < |t| && b < |t|
    ensures !FalseAt(t, k, id, w, b)
  {
    if FalseAt(t, k, id, w, b) {
      NotStartedIsTrue(t, k, id, w, b);
      assert WrittenIn(t[..k - 1], id);
      var v: nat :| v < k - 1 && t[..k - 1][v] == Wrote(id);
      assert t[v] == Wrote(id);
      WrittenInOrder(t, v, w);
    }
  }

  /** For a worker that answers only ids it has been sent no report of a write is ever false. */
  lemma NeverFalselyReported(parse: Parser, events: seq<Event>, id: nat)
    requires OnlySent(Run(parse, events).trace)
    ensures !FalselyReported(Run(parse, events).trace, id)
  {
    var t := Run(parse, events).trace;
    RunTellsTheTruth(parse, events);
    forall k, w, b | 0 <= k < |t| && 0 <= w < |t| && 0 <= b < |t| ensures !FalseAt(t, k, id, w, b) {
      NotFalselyAt(t, k, id, w, b);
    }
  }

  /** `pending` holds exactly the accepted requests whose promise has not ended. */
  lemma PendingIsExact(parse: Parser, events: seq<Event>, id: nat)
    ensures var s := Run(parse, events);
            id in s.pending <==> AcceptedIn(s.trace, id) && !EndedIn(s.trace, id)
  {
    var s := Run(parse, events);
    RunIsFramed(parse, events);
    RunKeeps(parse, events);
    AuditKnows(s.trace, id);
  }

  /** After any poisoning or close every accepted request has ended. */
  lemma AllEndedOncePoisoned(parse: Parser, events: seq<Event>, id: nat)
    ensures var s := Run(parse, events);
            s.cleaned && AcceptedIn(s.trace, id) ==> EndedIn(s.trace, id)
  {
    RunKeeps(parse, events);
    PendingIsExact(parse, events, id);
  }

  lemma PoisonedIgnores(parse: Parser, s: State, chunk: Bytes)
    requires Inv(s) && s.cleaned
    ensures Stdout(parse, s, chunk).(buffer := s.buffer) == s
  {
    PumpInert(parse, s.(buffer := s.buffer + chunk));
  }

  /** Poisoned for good: still empty, and nothing was accepted or written. */
  ghost predicate Silent(s: State, t: State) {
    && t.cleaned && t.pending == map[] && t.queue == []
    && t.audit.accepted == s.audit.accepted && t.audit.written == s.audit.written
  }

  lemma PipesStaySilent(parse: Parser, s: State, e: Event)
    requires Inv(s) && s.cleaned && FromPipes(e)
    ensures Silent(s, Step(parse, s, e))
  {
    match e
    case EvStdout(chunk) => if s.child { PoisonedIgnores(parse, s, chunk); }
    case _ =>
  }

  lemma RefusedSilently(s: State, r: RequestArgs)
    requires Inv(s) && s.cleaned
    ensures Silent(s, Request(s, r))
  {
    if r.methodGiven { assert Request(s, r) == TurnAway(s, UnavailableAfterFailure(s, r.definitive)); }
  }

  lemma CallerStaysSilent(s: State, id: nat, w: WriteResult)
    requires Inv(s) && s.cleaned
    ensures Silent(s, Abort(s, id, w)) && Silent(s, TimedOut(s, id, w))
    ensures Silent(s, Close(s)) && Silent(s, ShutdownDeadline(s))
  {
  }

  lemma ChildStaysSilent(s: State)
    requires Inv(s) && s.cleaned
    ensures Silent(s, Spawned(s)) && Silent(s, ChildError(s)) && Silent(s, ChildClose(s))
  {
    assert Recall(map[]) == map[];
  }

  lemma PoisonedStays(parse: Parser, s: State, e: Event)
    requires Inv(s) && s.cleaned
    ensures Silent(s, Step(parse, s, e))
  {
    match e
    case EvRequest(r) => RefusedSilently(s, r);
    case EvAbort(id, w) => CallerStaysSilent(s, id, w);
    case EvTimeout(id, w) => CallerStaysSilent(s, id, w);
    case EvClose => CallerStaysSilent(s, 0, Taken);
    case EvShutdownDeadline => CallerStaysSilent(s, 0, Taken);
    case EvSpawned => ChildStaysSilent(s);
    case EvChildError => ChildStaysSilent(s);
    case EvChildClose => ChildStaysSilent(s);
    case _ => PipesStaySilent(parse, s, e);
  }

  /** What a poisoning tells the requests it rejects: its own code; and, once the child has started, that
      the write was not started exactly if the body was not written, and that the outcome is unknown,
      reconcile first, exactly if it was and the request is definitive. */
  lemma RejectionFits(parse: Parser, events: seq<Event>, k: nat, id: nat)
    requires var t := Run(parse, events).trace; k < |t| && t[k].Poisoned? && id in t[k].rejected
    ensures var t := Run(parse, events).trace;
            var o := t[k].rejected[id];
            && !FromWorker(o) && o.code == t[k].code
            && (o.OutcomeUnknown? ==> WrittenIn(t[..k], id) && DefinitiveIn(t[..k], id))
            && (StartedIn(t[..k]) ==>
                  && (ClaimsNotStarted(o) <==> !WrittenIn(t[..k], id))
                  && (o.OutcomeUnknown? <==> WrittenIn(t[..k], id) && DefinitiveIn(t[..k], id))
                  && (o.OutcomeUnknown? ==> o.execution == Execution(true, Unknown, ReconcileFirst)))
  {
    var t := Run(parse, events).trace;
    RunTellsTheTruth(parse, events);
    TruthfulAt(t, k);
    AuditKnows(t[..k], id);
    AuditKnowsStart(t[..k]);
    AuditKnowsDefinitive(t[..k], id);
  }

  predicate LeftUnknown(e: Entry) {
    e.Poisoned? && LeavesUnknown(e.rejected)
  }

  lemma NoteKnowsUnknown(a: Audit, e: Entry)
    ensures Note(a, e).unknown <==> a.unknown || LeftUnknown(e)
  {
    match e
    case Accepted(_, _) =>
    case Wrote(_) =>
    case Started =>
    case Received(_, _) =>
    case Poisoned(_, _) =>
    case Settled(_, _) =>
  }

  lemma {:induction false} AuditKnowsUnknown(t: seq<Entry>)
    ensures AuditOf(t).unknown <==> exists k :: 0 <= k < |t| && LeftUnknown(t[k])
  {
    if t != [] {
      AuditKnowsUnknown(Front(t));
      NoteKnowsUnknown(AuditOf(Front(t)), Last(t));
      assert forall k :: 0 <= k < |t| - 1 ==> Front(t)[k] == t[k];
    }
  }

  /** A call on an unusable transport is told to reconcile first, its outcome unknown, if and only if
      the poisoning left the outcome of a definitive request unknown. */
  lemma LaterCallsAreTold(parse: Parser, events: seq<Event>, definitive: bool)
    requires Run(parse, events).failure.Some?
    ensures var s := Run(parse, events);
            var told := UnavailableAfterFailure(s, definitive);
            && ((exists k :: 0 <= k < |s.trace| && LeftUnknown(s.trace[k])) <==> s.outcomeUnknown)
            && (told.execution.retry.ReconcileFirst? <==> s.outcomeUnknown)
            && told.execution.writeOutcome.NotStarted?
  {
    RunIsFramed(parse, events);
    RunKeeps(parse, events);
    AuditKnowsUnknown(Run(parse, events).trace);
  }

  /** The cause of a refusal: told to change something, every transport would refuse the call; the two
      limits are reported only when reached; and without them a new transport refuses the call as well. */
  ghost predicate Justified(s: State, r: RequestArgs, code: Code) {
    && (NeedsChange(code) ==> forall t: State :: Refusal(t, r).Some?)
    && (code.PendingLimit? ==> |s.pending| == MAX_PENDING)
    && (code.WriteQueueLimit? ==> r.body.Some? && QueueBytes(s.queue) + r.body.value > MAX_QUEUED_BYTES)
    && (!code.PendingLimit? ==> (code.WriteQueueLimit? <==> Refusal(INITIAL, r).None?))
  }

  /** A call refused on a usable transport ends at once, for a cause, and touches nothing else; it is told
      to change something first exactly when a retry as such cannot help. */
  lemma RefusalIsJustified(parse: Parser, events: seq<Event>, r: RequestArgs)
    requires Run(parse, events).failure.None? && r.methodGiven && Refusal(Run(parse, events), r).Some?
    ensures var s, code := Run(parse, events), Refusal(Run(parse, events), r).value;
            var advice := if NeedsChange(code) then AfterChange else SafeNow;
            && Run(parse, events + [EvRequest(r)])
               == TurnAway(s, Unavailable(code, Execution(false, NotStarted, advice)))
            && Justified(s, r, code)
  {
    var s := Run(parse, events);
    RunAppend(parse, events, EvRequest(r));
    Refused(s, r);
    QueueDiscipline(parse, events);
    RefusalCauses(s, r);
  }

  lemma RefusalCauses(s: State, r: RequestArgs)
    requires Refusal(s, r).Some? && |s.pending| <= MAX_PENDING && s.queuedBytes == QueueBytes(s.queue)
    ensures Justified(s, r, Refusal(s, r).value)
  {
  }

  lemma Refused(s: State, r: RequestArgs)
    requires s.failure.None? && r.methodGiven && Refusal(s, r).Some?
    ensures Request(s, r) == TurnAway(s, UnavailableFor(Fresh(r.definitive, false), FailureOf(Refusal(s, r).value)))
  {
  }

  /** The write queue after any history: exact bytes within 4 MiB, request order, at most 1024
      pending and 1024 abandoned, the two disjoint, and never idle. */
  lemma QueueDiscipline(parse: Parser, events: seq<Event>)
    ensures var s := Run(parse, events);
            && s.queuedBytes == QueueBytes(s.queue) <= MAX_QUEUED_BYTES
            && InOrder(s.queue)
            && |s.pending| <= MAX_PENDING && |s.abandoned| <= MAX_PENDING
            && (forall id | id in s.abandoned :: id !in s.pending)
            && (!s.cleaned && s.child && s.queue != [] ==> s.writing || s.blocked)
  {
    RunKeeps(parse, events);
  }

  /** For a worker that answers only ids it has been sent, the queue holds exactly the undispatched
      pending requests. */
  lemma QueueIsUndispatched(parse: Parser, events: seq<Event>, id: nat)
    requires OnlySent(Run(parse, events).trace)
    ensures var s := Run(parse, events);
            id in QueueIds(s.queue) <==> id in s.pending && !s.pending[id].dispatched
  {
    RunIsFramed(parse, events);
    RunKeeps(parse, events);
    OnlySentIsSeen(Run(parse, events).trace);
  }

  /** Bodies leave in the order their requests were accepted, each at most once. */
  lemma WritesLeaveInOrder(parse: Parser, events: seq<Event>, i: nat, j: nat)
    requires i < j < |Run(parse, events).trace|
    requires Run(parse, events).trace[i].Wrote? && Run(parse, events).trace[j].Wrote?
    ensures Run(parse, events).trace[i].id < Run(parse, events).trace[j].id
  {
    RunTellsTheTruth(parse, events);
    WrittenInOrder(Run(parse, events).trace, i, j);
  }

  /** A fair worker is never blamed while at most 1024 late answers are owed. */
  lemma FairWorkerIsNeverBlamed(parse: Parser, events: seq<Event>, k: nat)
    requires k < |Run(parse, events).trace| && Run(parse, events).trace[k].Poisoned?
    requires FairWorker(Run(parse, events).trace[..k]) && WithinBound(Run(parse, events).trace[..k])
    ensures !ResponseFault(Run(parse, events).trace[k].code)
  {
    var t := Run(parse, events).trace;
    RunIsBlameless(parse, events);
    BlamelessAt(t, k);
    FairWorkerIsSeen(t[..k]);
    WithinBoundIsSeen(t[..k]);
  }

  lemma RunIsBlameless(parse: Parser, events: seq<Event>)
    ensures AuditOf(Run(parse, events).trace).blameless
  {
    RunIsFramed(parse, events);
    RunKeeps(parse, events);
  }

  /** Under such a worker the abandoned set is exactly the late answers still owed. */
  lemma AbandonedIsOwed(parse: Parser, events: seq<Event>, id: nat)
    requires !Run(parse, events).cleaned
    requires FairWorker(Run(parse, events).trace) && WithinBound(Run(parse, events).trace)
    ensures id in Run(parse, events).abandoned <==> Owed(Run(parse, events).trace, id)
  {
    var t := Run(parse, events).trace;
    RunIsFramed(parse, events);
    RunKeeps(parse, events);
    FairWorkerIsSeen(t);
    WithinBoundIsSeen(t);
    AuditKnowsOwed(t, id);
  }

  /** A late answer is absorbed once: it changes no promise, and the same line again poisons. */
  lemma LateAnswerAbsorbedOnce(parse: Parser, s: State, line: Bytes)
    requires Inv(s) && !s.cleaned
    requires var reply := parse(StripCarriageReturn(line)); reply.Envelope? && reply.id in s.abandoned
    ensures var t := HandleLine(parse, s, line);
            && !t.cleaned && t.pending == s.pending && t.queue == s.queue && t.trace == s.trace + [t.trace[|s.trace|]]
            && (forall id :: id in t.abandoned <==> id in s.abandoned && id != parse(StripCarriageReturn(line)).id)
            && HandleLine(parse, t, line).failure == Some(FailureOf(UnknownResponseId))
  {
    var reply := parse(StripCarriageReturn(line));
    assert reply.id !in s.pending;
    var t := HandleLine(parse, s, line);
    assert t == Absorb(Take(s, line, reply), reply.id);
    assert reply.id !in t.abandoned && reply.id !in t.pending;
  }

  /** The bound is sharp: with 1024 late answers owed, giving up on one more request forgets the oldest,
      and the worker's honest late answer to it is taken for an unknown id. */
  lemma OneMoreForgetsTheOldest(parse: Parser, s: State, id: nat, line: Bytes)
    requires Inv(s) && !s.cleaned && |s.abandoned| == MAX_PENDING
    requires id in s.pending && s.pending[id].dispatched && s.pending[id].writeCompleted
    requires var reply := parse(StripCarriageReturn(line)); reply.Envelope? && reply.id == s.abandoned[0]
    ensures var t := Abandon(s, id, FailureOf(RequestCancelled));
            && !t.cleaned && |t.abandoned| == MAX_PENDING
            && HandleLine(parse, t, line).failure == Some(FailureOf(UnknownResponseId))
  {
    var t, oldest := Abandon(s, id, FailureOf(RequestCancelled)), s.abandoned[0];
    assert t.abandoned == Remember(s.abandoned, id) == (s.abandoned + [id])[1..];
    assert oldest in s.abandoned && oldest !in s.pending;
    assert oldest !in t.abandoned;
  }

  // ---------------------------------------------------------------- answers nobody was asked for

  /** Every queued body still has a promise waiting for it. */
  ghost predicate QueueAgrees(s: State) {
    forall id | id in QueueIds(s.queue) :: id in s.pending
  }

  /** `handleLine` does not ask whether the request was dispatched: the queue keeps agreeing with
      the pending map if and only if the answered request had been. */
  lemma AnswerKeepsAgreement(parse: Parser, s: State, line: Bytes)
    requires Inv(s) && !s.cleaned && QueueAgrees(s)
    requires var reply := parse(StripCarriageReturn(line)); WellFormed(reply) && reply.id in s.pending
    ensures QueueAgrees(HandleLine(parse, s, line)) <==> s.pending[parse(StripCarriageReturn(line)).id].dispatched
  {
    var reply := parse(StripCarriageReturn(line));
    var t := HandleLine(parse, s, line);
    assert t.queue == s.queue && t.pending.Keys == s.pending.Keys - {reply.id};
    if !s.pending[reply.id].dispatched {
      assert reply.id in QueueIds(t.queue) && reply.id !in t.pending;
    }
  }

  // ---------------------------------------------------------------- close

  /** Close reports the exit only when no child can be running, and has ended every promise. */
  lemma CloseIsTheExit(parse: Parser, events: seq<Event>)
    ensures var s := Run(parse, events);
            && (s.closing.ExitConfirmed? ==> !s.child || s.childClosed)
            && (!s.closing.NotRequested? ==> s.cleaned && s.pending == map[])
  {
    RunKeeps(parse, events);
  }
}
