/** The invariant of the transport and its preservation by every event. */
module TransportInvariant {
  import opened Basics
  import opened TransportTypes
  import opened TransportLog
  import opened TransportModel
  import opened Framing

  function QueueIds(queue: seq<QueuedWrite>): set<nat> {
    if queue == [] then {} else {queue[0].id} + QueueIds(queue[1..])
  }

  function QueueBytes(queue: seq<QueuedWrite>): nat {
    if queue == [] then 0 else queue[0].bytes + QueueBytes(queue[1..])
  }

  ghost predicate InOrder(queue: seq<QueuedWrite>) {
    forall i, j :: 0 <= i < j < |queue| ==> queue[i].id < queue[j].id
  }

  /** Every body still queued belongs to a later request than every body written. */
  ghost predicate Ahead(written: map<nat, bool>, queue: seq<QueuedWrite>) {
    forall id, sent | id in QueueIds(queue) && sent in written :: sent < id
  }

  ghost predicate PendingAgrees(p: Pending, id: nat, a: Audit) {
    && id in a.accepted
    && p.definitive == a.accepted[id]
    && (p.dispatched ==> id in a.written)
    && (Handed(a, id) ==> p.dispatched)
  }

  /** The pending map holds exactly the accepted requests whose promise has not ended.  Between
      events `dispatched` says exactly "written" (see `Queues`); the weaker form in
      `PendingAgrees` survives inside an event too. */
  ghost predicate Books(s: State) {
    var a := s.audit;
    && a.truthful && a.blameless
    && 1 <= s.nextId
    && (forall id | id in a.accepted :: 1 <= id < s.nextId)
    && (forall id | id in a.settled :: id < s.nextId)
    && (forall id | id in a.written :: id in a.accepted)
    && (forall id :: id in s.pending <==> id in a.accepted && id !in a.settled)
    && |s.pending| <= MAX_PENDING
    && (forall id | id in s.pending :: PendingAgrees(s.pending[id], id, a))
    && a.started == s.childStarted
    && (s.childStarted ==> s.child)
    && a.poisoned == s.cleaned
    && a.unknown == s.outcomeUnknown && (a.unknown ==> s.cleaned)
    && s.failure.Some? == s.cleaned
    && (s.failure.Some? ==> s.failure.value.retry != Some(ReconcileFirst))
    && (s.inFlight != 0 ==> s.inFlight in a.written)
    && (a.fair ==> a.onlySent)
  }

  /** The write queue: exact byte accounting, request order, and agreement with the pending map.
      The last agreement needs a worker that answers only ids it has been sent. */
  ghost predicate Queues(s: State) {
    && s.queuedBytes == QueueBytes(s.queue) <= MAX_QUEUED_BYTES
    && InOrder(s.queue)
    && (forall id | id in QueueIds(s.queue) :: id in s.audit.accepted)
    && Ahead(s.audit.written, s.queue)
    && (forall id | id in s.pending :: s.pending[id].dispatched <==> id !in QueueIds(s.queue))
    && (s.audit.onlySent ==> forall id | id in QueueIds(s.queue) :: id in s.pending)
    && (!s.cleaned && !s.child ==> s.pending == map[] && s.queue == [])
    && (!s.cleaned ==> (s.writing <==> s.inFlight != 0))
    && (s.cleaned ==> s.queue == [] && s.pending == map[] && s.abandoned == [] && !s.writing && !s.blocked)
  }

  ghost predicate EarlyEndsAreLate(a: Audit) {
    && (forall id | id in a.answered :: id in a.settled)
    && (forall id | id in a.settled :: EndsEarly(a, id) ==> id in a.late)
  }

  /** The abandoned set: bounded, settled ids only, and, for a fair worker within the bound,
      exactly the late answers still owed. */
  ghost predicate AbandonedAgree(abandoned: seq<nat>, a: Audit) {
    && NoDuplicates(abandoned)
    && |abandoned| <= MAX_PENDING
    && (forall id | id in abandoned :: id in a.written && id in a.settled)
    && (a.fair ==> EarlyEndsAreLate(a))
    && (a.fair && a.bounded ==> forall id :: id in abandoned <==> id in a.late)
  }

  ghost predicate Abandonment(s: State) {
    !s.cleaned ==> AbandonedAgree(s.abandoned, s.audit)
  }

  /** While usable, the kept bytes are one incomplete line within the size limit. */
  ghost predicate Framed(s: State) {
    !s.cleaned ==> NEWLINE !in s.buffer && |s.buffer| <= MAX_STDOUT_LINE_BYTES
  }

  /** A usable transport with something to write is waiting for the pipe, never idle. */
  ghost predicate NeverStalls(s: State) {
    !s.cleaned && s.queue != [] ==> s.child && (s.writing || s.blocked)
  }

  /** "The exit is the shutdown receipt": close is confirmed only when no child can be running. */
  ghost predicate ClosesTruly(s: State) {
    (s.closing.ExitConfirmed? ==> !s.child || s.childClosed) && (!s.closing.NotRequested? ==> s.cleaned)
  }

  /** A body is still queued after its promise ended only if the worker ended it. */
  ghost predicate Withheld(a: Audit, queue: seq<QueuedWrite>) {
    forall id | id in QueueIds(queue) && id in a.settled :: FromWorker(a.settled[id])
  }

  ghost predicate Undispatched(s: State) {
    forall id | id in s.pending && !s.pending[id].dispatched :: id !in s.audit.written
  }

  /** What was said about writes goes on to hold: nothing queued was given up, and what was written was
      reported so, unless the child turned out never to have been spawned. */
  ghost predicate Reports(s: State) {
    && Withheld(s.audit, s.queue)
    && (if s.spawnFailed then !s.childStarted else ReportsHold(s.audit) && Undispatched(s))
  }

  ghost predicate Core(s: State) {
    Books(s) && Queues(s) && Abandonment(s) && Reports(s)
  }

  ghost predicate Steady(s: State) {
    Core(s) && NeverStalls(s) && ClosesTruly(s) && (s.spawnFailed ==> s.cleaned)
  }

  ghost predicate Inv(s: State) {
    Steady(s) && Framed(s)
  }

  // ---------------------------------------------------------------- the write queue

  lemma {:induction false} QueueConcat(a: seq<QueuedWrite>, b: seq<QueuedWrite>)
    ensures QueueIds(a + b) == QueueIds(a) + QueueIds(b)
    ensures QueueBytes(a + b) == QueueBytes(a) + QueueBytes(b)
  {
    if a == [] {
      assert a + b == b;
    } else {
      QueueConcat(a[1..], b);
      assert (a + b)[1..] == a[1..] + b;
    }
  }

  lemma {:induction false} QueueIdsAt(queue: seq<QueuedWrite>, k: nat)
    requires k < |queue|
    ensures queue[k].id in QueueIds(queue)
  {
    if k > 0 {
      QueueIdsAt(queue[1..], k - 1);
    }
  }

  lemma {:induction false} QueueIdsIndex(queue: seq<QueuedWrite>, id: nat) returns (k: nat)
    requires id in QueueIds(queue)
    ensures k < |queue| && queue[k].id == id
  {
    if queue[0].id == id {
      k := 0;
    } else {
      k := QueueIdsIndex(queue[1..], id);
      k := k + 1;
    }
  }

  lemma QueueRemove(queue: seq<QueuedWrite>, i: nat)
    requires i < |queue| && InOrder(queue)
    ensures var cut := queue[..i] + queue[i + 1..];
            && InOrder(cut)
            && QueueIds(cut) == QueueIds(queue) - {queue[i].id}
            && QueueBytes(cut) == QueueBytes(queue) - queue[i].bytes
    ensures queue[i].id in QueueIds(queue)
  {
    var head, tail := queue[..i], queue[i + 1..];
    QueueConcat(head, tail);
    QueueConcat(head, queue[i..]);
    assert queue == head + queue[i..];
    StandsOnce(queue, i);
    CutInOrder(queue, i);
  }

  lemma CutInOrder(queue: seq<QueuedWrite>, i: nat)
    requires i < |queue| && InOrder(queue)
    ensures InOrder(queue[..i] + queue[i + 1..])
  {
    var cut := queue[..i] + queue[i + 1..];
    assert forall k :: 0 <= k < |cut| ==> cut[k] == queue[if k < i then k else k + 1];
  }

  lemma StandsOnce(queue: seq<QueuedWrite>, i: nat)
    requires i < |queue| && InOrder(queue)
    ensures queue[i].id !in QueueIds(queue[..i]) && queue[i].id !in QueueIds(queue[i + 1..])
  {
    if queue[i].id in QueueIds(queue[..i]) {
      var k := QueueIdsIndex(queue[..i], queue[i].id);
    }
    if queue[i].id in QueueIds(queue[i + 1..]) {
      var k := QueueIdsIndex(queue[i + 1..], queue[i].id);
    }
  }

  lemma QueuePop(queue: seq<QueuedWrite>)
    requires queue != [] && InOrder(queue)
    ensures InOrder(queue[1..])
    ensures QueueIds(queue[1..]) == QueueIds(queue) - {queue[0].id} && queue[0].id in QueueIds(queue)
    ensures forall id | id in QueueIds(queue[1..]) :: queue[0].id < id
  {
    QueueRemove(queue, 0);
    assert queue[..0] + queue[1..] == queue[1..];
    forall id | id in QueueIds(queue[1..]) ensures queue[0].id < id {
      var k := QueueIdsIndex(queue[1..], id);
    }
  }

  lemma QueuePush(queue: seq<QueuedWrite>, item: QueuedWrite)
    requires InOrder(queue) && forall id | id in QueueIds(queue) :: id < item.id
    ensures InOrder(queue + [item])
    ensures QueueIds(queue + [item]) == QueueIds(queue) + {item.id}
    ensures QueueBytes(queue + [item]) == QueueBytes(queue) + item.bytes
  {
    QueueConcat(queue, [item]);
    assert QueueIds([item]) == {item.id} + QueueIds([]);
    assert QueueBytes([item]) == item.bytes + QueueBytes([]);
    forall k | 0 <= k < |queue| ensures queue[k].id < item.id {
      QueueIdsAt(queue, k);
    }
  }

  lemma AbsentFromQueue(queue: seq<QueuedWrite>, id: nat)
    ensures IndexOf(queue, id) == |queue| <==> id !in QueueIds(queue)
  {
    var i := IndexOf(queue, id);
    if i < |queue| {
      QueueIdsAt(queue, i);
    } else if id in QueueIds(queue) {
      var k := QueueIdsIndex(queue, id);
    }
  }

  // ---------------------------------------------------------------- poisoning

  lemma RejectionIsHonest(a: Audit, p: Pending, id: nat, failure: Failure)
    requires PendingAgrees(p, id, a) && id !in a.settled
    ensures Honest(a, id, FailureForPending(p, failure)) && !FromWorker(FailureForPending(p, failure))
    ensures FailureForPending(p, failure).code == failure.code
  {
  }

  /** Poisoning settles exactly the pending requests and leaves the transport empty. */
  lemma InvalidateKeeps(s: State, failure: Failure)
    requires Books(s) && Reports(s) && (s.cleaned ==> Inv(s)) && failure.retry != Some(ReconcileFirst)
    requires s.closing.ExitConfirmed? ==> !s.child || s.childClosed
    requires s.audit.fair && s.audit.bounded ==> !ResponseFault(failure.code)
    ensures Inv(Invalidate(s, failure)) && Invalidate(s, failure).cleaned
  {
    if !s.cleaned {
      InvalidateBooks(s, failure);
      InvalidateReports(s, failure);
      assert QueueIds([]) == {} && QueueBytes([]) == 0;
    }
  }

  /** Every pending promise ends within the one entry, and truly. */
  lemma InvalidateBooks(s: State, failure: Failure)
    requires Books(s) && !s.cleaned && failure.retry != Some(ReconcileFirst)
    requires s.audit.fair && s.audit.bounded ==> !ResponseFault(failure.code)
    ensures Books(Invalidate(s, failure))
    ensures forall id | id in s.pending :: id in Invalidate(s, failure).audit.settled
  {
    forall id | id in s.pending {
      RejectionIsHonest(s.audit, s.pending[id], id, failure);
    }
    UnknownIsRejected(s.pending, failure);
  }

  lemma RejectionStands(a: Audit, p: Pending, id: nat, failure: Failure)
    requires PendingAgrees(p, id, a) && p.dispatched
    ensures Stands(a, id, FailureForPending(p, failure))
  {
  }

  lemma InvalidateReports(s: State, failure: Failure)
    requires Books(s) && Reports(s) && !s.cleaned
    ensures Reports(Invalidate(s, failure))
  {
    if !s.spawnFailed {
      var t := Invalidate(s, failure);
      forall id | id in t.audit.written && id in t.audit.settled ensures Stands(t.audit, id, t.audit.settled[id]) {
        InvalidateStands(s, failure, id);
      }
    }
  }

  lemma InvalidateStands(s: State, failure: Failure, id: nat)
    requires Books(s) && ReportsHold(s.audit) && Undispatched(s) && !s.cleaned
    requires var a := Invalidate(s, failure).audit; id in a.written && id in a.settled
    ensures var a := Invalidate(s, failure).audit; Stands(a, id, a.settled[id])
  {
    if id in s.pending { RejectionStands(s.audit, s.pending[id], id, failure); }
  }

  lemma UnknownIsRejected(pending: map<nat, Pending>, failure: Failure)
    ensures LeavesUnknown(Rejections(pending, failure)) == AuthoritativeUnknown(pending)
  {
    var rejected := Rejections(pending, failure);
    if id :| id in pending && pending[id].dispatched && pending[id].definitive {
      assert id in rejected && rejected[id].OutcomeUnknown?;
    }
  }

  lemma PoisonKeeps(s: State, code: Code)
    requires Books(s) && Reports(s) && (s.cleaned ==> Inv(s))
    requires s.closing.ExitConfirmed? ==> !s.child || s.childClosed
    requires s.audit.fair && s.audit.bounded ==> !ResponseFault(code)
    ensures Inv(Poison(s, code)) && Poison(s, code).cleaned
  {
    InvalidateKeeps(s, FailureOf(code));
  }

  // ---------------------------------------------------------------- writes

  lemma DispatchBooks(s: State)
    requires Books(s) && Queues(s) && Withheld(s.audit, s.queue) && CanWrite(s)
    ensures Books(Dispatch(s))
  {
    DispatchTruthful(s);
  }

  lemma DispatchTruthful(s: State)
    requires Books(s) && Queues(s) && Withheld(s.audit, s.queue) && CanWrite(s)
    ensures NoteWrote(s.audit, s.queue[0].id).truthful && s.queue[0].id in s.audit.accepted
    ensures s.audit.accepted.Keys == NoteWrote(s.audit, s.queue[0].id).accepted.Keys
  {
    QueueIdsAt(s.queue, 0);
  }

  lemma DispatchQueues(s: State)
    requires Books(s) && Queues(s) && CanWrite(s)
    ensures Queues(Dispatch(s))
  {
    QueuePop(s.queue);
  }

  lemma DispatchAbandonment(s: State)
    requires Core(s) && CanWrite(s)
    ensures Abandonment(Dispatch(s))
  {
    QueueIdsAt(s.queue, 0);
  }

  lemma DispatchReports(s: State)
    requires Core(s) && CanWrite(s)
    ensures Reports(Dispatch(s))
  {
    QueuePop(s.queue);
  }

  lemma FlushKeeps(s: State, w: WriteResult)
    requires Core(s) && Framed(s) && ClosesTruly(s) && (s.spawnFailed ==> s.cleaned)
    ensures Inv(Flush(s, w))
  {
    if CanWrite(s) {
      DispatchBooks(s);
      DispatchQueues(s);
      DispatchAbandonment(s);
      DispatchReports(s);
      DispatchedKeeps(Dispatch(s), w);
    }
  }

  lemma DispatchedKeeps(d: State, w: WriteResult)
    requires Core(d) && Framed(d) && ClosesTruly(d) && (d.spawnFailed ==> d.cleaned)
    requires !d.cleaned && d.child && d.writing
    ensures w.Throws? ==> Inv(Poison(d.(writing := false, inFlight := 0), RequestWriteFailed))
    ensures Inv(d) && Inv(d.(blocked := true))
  {
    if w.Throws? {
      PoisonKeeps(d.(writing := false, inFlight := 0), RequestWriteFailed);
    }
  }

  lemma LandedKeeps(s: State, ok: bool)
    requires Core(s)
    ensures Core(Landed(s, ok))
  {
    LandedBooks(s, ok);
    LandedQueues(s, ok);
  }

  lemma LandedBooks(s: State, ok: bool)
    requires Books(s)
    ensures Books(Landed(s, ok))
  {
  }

  lemma LandedQueues(s: State, ok: bool)
    requires Queues(s)
    ensures Queues(Landed(s, ok))
  {
  }

  lemma WriteDoneKeeps(s: State, ok: bool, w: WriteResult)
    requires Inv(s)
    ensures Inv(WriteDone(s, ok, w))
  {
    if s.inFlight != 0 {
      LandedKeeps(s, ok);
      if ok { FlushKeeps(Landed(s, ok), w); } else { PoisonKeeps(Landed(s, ok), RequestWriteFailed); }
    }
  }

  lemma DrainedKeeps(s: State, w: WriteResult)
    requires Inv(s)
    ensures Inv(Drained(s, w))
  {
    FlushKeeps(s.(blocked := false), w);
  }

  // ---------------------------------------------------------------- request

  /** A call turned away changes nothing but the id counter and its own promise. */
  lemma TurnAwayKeeps(s: State, o: Outcome)
    requires Inv(s) && o.Unavailable? && ClaimsNotStarted(o)
    ensures Inv(TurnAway(s, o))
  {
    TurnAwayBooks(s, o);
    TurnAwayQueues(s, o);
    TurnAwayAbandonment(s, o);
    TurnAwayReports(s, o);
  }

  lemma TurnAwayBooks(s: State, o: Outcome)
    requires Books(s) && o.Unavailable? && ClaimsNotStarted(o)
    ensures Books(TurnAway(s, o))
  {
  }

  lemma TurnAwayQueues(s: State, o: Outcome)
    requires Queues(s)
    ensures Queues(TurnAway(s, o))
  {
  }

  lemma TurnAwayAbandonment(s: State, o: Outcome)
    requires Books(s) && Abandonment(s)
    ensures Abandonment(TurnAway(s, o))
  {
  }

  lemma TurnAwayReports(s: State, o: Outcome)
    requires Books(s) && Queues(s) && Reports(s)
    ensures Reports(TurnAway(s, o))
  {
  }

  lemma RegisterKeeps(s: State, r: RequestArgs)
    requires Books(s) && !s.cleaned && |s.pending| < MAX_PENDING
    ensures Books(Register(s, r))
  {
    assert s.nextId !in s.pending;
  }

  lemma RegisterReports(s: State, r: RequestArgs)
    requires Core(s) && !s.cleaned
    ensures Reports(Register(s, r))
  {
  }

  lemma AdmitReports(s: State, r: RequestArgs)
    requires Core(s) && !s.cleaned && Refusal(s, r).None?
    ensures Reports(Admit(s, r))
  {
    RegisterReports(s, r);
    QueuePush(s.queue, QueuedWrite(s.nextId, r.body.value));
  }

  lemma AdmitBooks(s: State, r: RequestArgs)
    requires Books(s) && Queues(s) && !s.cleaned && Refusal(s, r).None?
    ensures Books(Admit(s, r))
  {
    RegisterKeeps(s, r);
  }

  /** The queue with one more body fits the audit that has accepted its request. */
  lemma PushQueues(s: State, t: State, item: QueuedWrite)
    requires Queues(s) && !s.cleaned && !t.cleaned && t.child
    requires t.queue == s.queue + [item] && t.queuedBytes == s.queuedBytes + item.bytes <= MAX_QUEUED_BYTES
    requires forall id | id in QueueIds(s.queue) :: id < item.id
    requires forall id | id in s.audit.accepted :: id in t.audit.accepted
    requires item.id in t.audit.accepted && item.id in t.pending
    requires forall id | id in s.pending :: id in t.pending
    requires Ahead(t.audit.written, t.queue) && t.audit.onlySent == s.audit.onlySent
    requires forall id | id in t.pending :: t.pending[id].dispatched <==> id !in QueueIds(t.queue)
    requires t.writing == s.writing && t.inFlight == s.inFlight
    ensures Queues(t)
  {
    QueuePush(s.queue, item);
  }

  lemma AdmitQueues(s: State, r: RequestArgs)
    requires Books(s) && Queues(s) && !s.cleaned && Refusal(s, r).None?
    ensures Queues(Admit(s, r))
  {
    var item := QueuedWrite(s.nextId, r.body.value);
    AdmitAhead(s, item);
    AdmitAgrees(s, r);
    PushQueues(s, Admit(s, r), item);
  }

  lemma AdmitAhead(s: State, item: QueuedWrite)
    requires Books(s) && Queues(s) && item.id == s.nextId
    ensures Ahead(s.audit.written, s.queue + [item])
  {
    QueueConcat(s.queue, [item]);
    assert QueueIds([item]) == {item.id} + QueueIds([]);
  }

  lemma AdmitAgrees(s: State, r: RequestArgs)
    requires Books(s) && Queues(s) && !s.cleaned && Refusal(s, r).None?
    ensures var t := Admit(s, r);
            forall id | id in t.pending :: t.pending[id].dispatched <==> id !in QueueIds(t.queue)
  {
    QueuePush(s.queue, QueuedWrite(s.nextId, r.body.value));
  }

  lemma AdmitAbandonment(s: State, r: RequestArgs)
    requires Core(s) && !s.cleaned && Refusal(s, r).None?
    ensures Abandonment(Admit(s, r))
  {
  }

  lemma AcceptKeeps(s: State, r: RequestArgs)
    requires Inv(s) && !s.cleaned && Refusal(s, r).None?
    ensures Inv(Accept(s, r))
  {
    if !s.child && !r.spawns {
      RegisterKeeps(s, r);
      RegisterReports(s, r);
      PoisonKeeps(Register(s, r), SpawnFailed);
    } else {
      AdmitBooks(s, r);
      AdmitQueues(s, r);
      AdmitAbandonment(s, r);
      AdmitReports(s, r);
      FlushKeeps(Admit(s, r), r.write);
    }
  }

  lemma RequestKeeps(s: State, r: RequestArgs)
    requires Inv(s)
    ensures Inv(Request(s, r))
  {
    if !r.methodGiven {
    } else if s.failure.Some? {
      TurnAwayKeeps(s, UnavailableAfterFailure(s, r.definitive));
    } else if Refusal(s, r).Some? {
      TurnAwayKeeps(s, UnavailableFor(Fresh(r.definitive, false), FailureOf(Refusal(s, r).value)));
    } else {
      AcceptKeeps(s, r);
    }
  }

  // ---------------------------------------------------------------- one promise ends

  lemma UnavailableIsHonest(a: Audit, p: Pending, id: nat, failure: Failure)
    requires PendingAgrees(p, id, a) && id !in a.settled && (p.dispatched ==> !p.definitive)
    ensures Honest(a, id, UnavailableFor(p, failure)) && !FromWorker(UnavailableFor(p, failure))
  {
  }

  lemma SettleBooks(s: State, id: nat, o: Outcome)
    requires Books(s) && !s.cleaned && id in s.pending && Honest(s.audit, id, o)
    requires FromWorker(o) ==> Relays(s.audit.last, id, o)
    requires o.WorkerError? ==> (ClaimsNotStarted(o) <==> id !in s.audit.written)
    ensures Books(Settle(s, id, o))
  {
  }

  lemma SettleReports(s: State, id: nat, o: Outcome)
    requires Reports(s) && (id in QueueIds(s.queue) ==> FromWorker(o))
    requires id in s.audit.written ==> Stands(s.audit, id, o)
    ensures Reports(Settle(s, id, o))
  {
  }

  lemma SettleQueues(s: State, id: nat, o: Outcome)
    requires Queues(s) && (s.audit.onlySent ==> id !in QueueIds(s.queue))
    ensures Queues(Settle(s, id, o))
  {
  }

  /** The set of abandoned ids stays right when the promise ends unwritten or answered. */
  lemma SettleAbandonment(s: State, id: nat, o: Outcome)
    requires Abandonment(s) && (s.audit.fair ==> !EndsEarly(s.audit, id))
    ensures Abandonment(Settle(s, id, o))
  {
  }

  lemma UnqueueCore(s: State, i: nat)
    requires Core(s) && i < |s.queue| && s.queue[i].id in s.pending
    ensures Books(Unqueue(s, i)) && Abandonment(Unqueue(s, i)) && Reports(Unqueue(s, i))
    ensures s.queue[i].id !in QueueIds(Unqueue(s, i).queue)
    ensures !s.pending[s.queue[i].id].dispatched && s.queue[i].id !in s.audit.written
  {
    QueueRemove(s.queue, i);
  }

  lemma CancelledQueues(s: State, i: nat, o: Outcome)
    requires Core(s) && i < |s.queue| && s.queue[i].id in s.pending
    ensures Queues(Settle(Unqueue(s, i), s.queue[i].id, o))
  {
    QueueRemove(s.queue, i);
  }

  lemma CancelledBooks(s: State, id: nat, failure: Failure)
    requires Books(s) && !s.cleaned && id in s.pending && !s.pending[id].dispatched
    ensures Books(Settle(s, id, UnavailableFor(s.pending[id], failure)))
  {
    UnavailableIsHonest(s.audit, s.pending[id], id, failure);
    SettleBooks(s, id, UnavailableFor(s.pending[id], failure));
  }

  lemma WithdrawKeeps(s: State, i: nat, failure: Failure)
    requires Inv(s) && i < |s.queue| && s.queue[i].id in s.pending
    ensures var t := Withdraw(s, i, UnavailableFor(s.pending[s.queue[i].id], failure));
            Core(t) && Framed(t) && ClosesTruly(t) && (t.spawnFailed ==> t.cleaned)
  {
    var id := s.queue[i].id;
    UnqueueCore(s, i);
    CancelledBooks(Unqueue(s, i), id, failure);
    CancelledQueues(s, i, UnavailableFor(s.pending[id], failure));
    SettleAbandonment(Unqueue(s, i), id, UnavailableFor(s.pending[id], failure));
    SettleReports(Unqueue(s, i), id, UnavailableFor(s.pending[id], failure));
  }

  lemma CancelKeeps(s: State, id: nat, failure: Failure, w: WriteResult)
    requires Inv(s) && id in s.pending && !s.pending[id].dispatched
    ensures Inv(CancelQueued(s, id, UnavailableFor(s.pending[id], failure), w))
  {
    var i, o := IndexOf(s.queue, id), UnavailableFor(s.pending[id], failure);
    CancelCases(s, id, o, w);
    if i < |s.queue| {
      WithdrawKeeps(s, i, failure);
      FlushKeeps(Withdraw(s, i, o), w);
    }
  }

  lemma CancelCases(s: State, id: nat, o: Outcome, w: WriteResult)
    requires id in s.pending && !s.pending[id].dispatched
    ensures var i := IndexOf(s.queue, id);
            CancelQueued(s, id, o, w) == if i == |s.queue| then s else Flush(Withdraw(s, i, o), w)
  {
  }

  lemma RememberBounded(abandoned: seq<nat>, id: nat)
    requires NoDuplicates(abandoned) && |abandoned| <= MAX_PENDING && id !in abandoned
    ensures NoDuplicates(Remember(abandoned, id)) && |Remember(abandoned, id)| <= MAX_PENDING
    ensures forall x | x in Remember(abandoned, id) :: x in abandoned || x == id
    ensures |abandoned| < MAX_PENDING ==> forall x :: x in Remember(abandoned, id) <==> x in abandoned || x == id
  {
  }

  /** Within the bound, the abandoned set has room for one more late answer. */
  lemma RoomForLate(abandoned: seq<nat>, late: set<nat>, id: nat)
    requires NoDuplicates(abandoned) && id !in abandoned && |late + {id}| <= MAX_PENDING
    requires forall x :: x in abandoned <==> x in late
    ensures |abandoned| < MAX_PENDING
  {
    ToSetSize(abandoned);
    assert ToSet(abandoned) == late;
  }

  lemma RememberedExactly(abandoned: seq<nat>, late: set<nat>, id: nat)
    requires NoDuplicates(abandoned) && id !in abandoned && |late + {id}| <= MAX_PENDING
    requires forall x :: x in abandoned <==> x in late
    ensures forall x :: x in Remember(abandoned, id) <==> x in late + {id}
  {
    RoomForLate(abandoned, late, id);
  }

  lemma RememberAgrees(abandoned: seq<nat>, a: Audit, id: nat, o: Outcome)
    requires AbandonedAgree(abandoned, a) && id in a.written && id !in a.settled
    ensures AbandonedAgree(Remember(abandoned, id), NoteSettled(a, id, o))
  {
    assert id !in abandoned;
    RememberBounded(abandoned, id);
    EarlyEndsStay(a, id, o);
    if a.fair && a.bounded && |a.late + {id}| <= MAX_PENDING {
      RememberedExactly(abandoned, a.late, id);
    }
  }

  lemma EarlyEndsStay(a: Audit, id: nat, o: Outcome)
    requires a.fair ==> EarlyEndsAreLate(a)
    ensures a.fair ==> EarlyEndsAreLate(NoteSettled(a, id, o))
  {
  }

  lemma AbandonAbandonment(s: State, id: nat, o: Outcome)
    requires Abandonment(s) && !s.cleaned && id in s.audit.written && id !in s.audit.settled
    ensures Abandonment(Settle(s.(abandoned := Remember(s.abandoned, id)), id, o))
  {
    RememberAgrees(s.abandoned, s.audit, id, o);
  }

  lemma AbandonKeeps(s: State, id: nat, failure: Failure)
    requires Inv(s) && id in s.pending && s.pending[id].dispatched && !s.pending[id].definitive
    ensures Inv(Abandon(s, id, failure))
  {
    if s.pending[id].writeCompleted {
      var o := UnavailableFor(s.pending[id], failure);
      var t := s.(abandoned := Remember(s.abandoned, id));
      UnavailableIsHonest(s.audit, s.pending[id], id, failure);
      SettleBooks(t, id, o);
      SettleQueues(t, id, o);
      SettleReports(t, id, o);
      AbandonAbandonment(s, id, o);
    }
  }

  lemma AbortKeeps(s: State, id: nat, w: WriteResult)
    requires Inv(s)
    ensures Inv(Abort(s, id, w))
  {
    if id in s.pending && s.pending[id].signal {
      var p, failure := s.pending[id], FailureOf(RequestCancelled);
      if !p.dispatched {
        CancelKeeps(s, id, failure, w);
      } else if p.definitive {
      } else if p.writeCompleted {
        AbandonKeeps(s, id, failure);
      } else {
        InvalidateKeeps(s, failure);
      }
    }
  }

  lemma TimedOutKeeps(s: State, id: nat, w: WriteResult)
    requires Inv(s)
    ensures Inv(TimedOut(s, id, w))
  {
    if id in s.pending {
      var failure := FailureOf(RequestTimeout);
      if !s.pending[id].dispatched { CancelKeeps(s, id, failure, w); } else { InvalidateKeeps(s, failure); }
    }
  }

  // ---------------------------------------------------------------- responses

  lemma TakeKeeps(s: State, line: Bytes, reply: Reply)
    requires Core(s) && !s.cleaned
    ensures Books(Take(s, line, reply)) && Queues(Take(s, line, reply)) && Reports(Take(s, line, reply))
  {
  }

  /** The worker is at fault whenever a response line poisons the transport: it was unfair with
      this line or before, or more late answers were due than are remembered. */
  lemma FaultIsTheWorkers(s: State, line: Bytes, reply: Reply)
    requires Core(s) && !s.cleaned
    requires Take(s, line, reply).audit.fair && Take(s, line, reply).audit.bounded
    ensures WellFormed(reply) && (reply.id in s.pending || reply.id in s.abandoned)
    ensures reply.id in s.pending ==> s.pending[reply.id].dispatched
  {
    assert FairLine(s.audit, reply);
  }

  lemma AbsorbKeeps(s: State, line: Bytes, reply: Reply)
    requires Core(s) && !s.cleaned && reply.Envelope? && reply.id !in s.pending && reply.id in s.abandoned
    ensures Core(Absorb(Take(s, line, reply), reply.id))
  {
    TakeKeeps(s, line, reply);
    AbsorbAbandonment(s, line, reply);
  }

  lemma AbsorbAbandonment(s: State, line: Bytes, reply: Reply)
    requires Books(s) && Abandonment(s) && !s.cleaned
    requires reply.Envelope? && reply.id !in s.pending && reply.id in s.abandoned
    ensures Abandonment(Absorb(Take(s, line, reply), reply.id))
  {
  }

  lemma AnsweredBooks(s: State, line: Bytes, reply: Reply, o: Outcome)
    requires Core(s) && !s.cleaned && reply.Envelope? && reply.id in s.pending
    requires FromWorker(o) && Relays(Some(reply), reply.id, o)
    requires o.WorkerError? ==> (ClaimsNotStarted(o) <==> reply.id !in s.audit.written)
    ensures Books(Settle(Take(s, line, reply), reply.id, o))
  {
    TakeKeeps(s, line, reply);
    SettleBooks(Take(s, line, reply), reply.id, o);
  }

  lemma AnsweredQueues(s: State, line: Bytes, reply: Reply, o: Outcome)
    requires Core(s) && !s.cleaned && reply.Envelope? && reply.id in s.pending
    ensures Queues(Settle(Take(s, line, reply), reply.id, o))
  {
    TakeKeeps(s, line, reply);
    SettleQueues(Take(s, line, reply), reply.id, o);
  }

  lemma AnsweredAbandonment(s: State, line: Bytes, reply: Reply, o: Outcome)
    requires Core(s) && !s.cleaned && reply.Envelope? && reply.id in s.pending
    ensures Abandonment(Settle(Take(s, line, reply), reply.id, o))
  {
    assert reply.id !in s.abandoned;
  }

  lemma AnsweredKeeps(s: State, line: Bytes, reply: Reply, o: Outcome)
    requires Steady(s) && !s.cleaned
    requires reply.Envelope? && reply.id in s.pending
    requires FromWorker(o) && Relays(Some(reply), reply.id, o)
    requires o.WorkerError? ==> (ClaimsNotStarted(o) <==> reply.id !in s.audit.written)
    ensures Steady(Settle(Take(s, line, reply), reply.id, o))
  {
    AnsweredBooks(s, line, reply, o);
    AnsweredQueues(s, line, reply, o);
    AnsweredAbandonment(s, line, reply, o);
    AnsweredReports(s, line, reply, o);
  }

  lemma AnsweredReports(s: State, line: Bytes, reply: Reply, o: Outcome)
    requires Core(s) && !s.cleaned && reply.Envelope? && reply.id in s.pending && FromWorker(o)
    ensures Reports(Settle(Take(s, line, reply), reply.id, o))
  {
    TakeKeeps(s, line, reply);
    SettleReports(Take(s, line, reply), reply.id, o);
  }

  /** A structured error reports a write exactly when there was one. */
  lemma WorkerErrorIsExact(s: State, id: nat, error: Payload, retryable: bool)
    requires Steady(s) && !s.cleaned && id in s.pending
    ensures ClaimsNotStarted(WorkerErrorFor(s.pending[id], error, retryable)) <==> id !in s.audit.written
  {
  }

  lemma FaultKeeps(s: State, line: Bytes, reply: Reply, code: Code)
    requires Steady(s) && !s.cleaned && ResponseFault(code)
    requires !WellFormed(reply) || (reply.id !in s.pending && reply.id !in s.abandoned)
    ensures Inv(Poison(Take(s, line, reply), code))
  {
    TakeKeeps(s, line, reply);
    if Take(s, line, reply).audit.fair && Take(s, line, reply).audit.bounded {
      FaultIsTheWorkers(s, line, reply);
    }
    PoisonKeeps(Take(s, line, reply), code);
  }

  lemma AbsorbSteady(s: State, line: Bytes, reply: Reply)
    requires Steady(s) && !s.cleaned && reply.Envelope? && reply.id !in s.pending && reply.id in s.abandoned
    ensures Steady(Absorb(Take(s, line, reply), reply.id))
  {
    AbsorbKeeps(s, line, reply);
  }

  lemma KnownKeeps(s: State, line: Bytes, reply: Reply)
    requires Steady(s) && !s.cleaned && reply.Envelope? && reply.id in s.pending
    ensures Steady(Answer(Take(s, line, reply), reply.id, reply.body))
  {
    match reply.body
    case Ambiguous => FaultKeeps(s, line, reply, AmbiguousResponse);
    case BadError => FaultKeeps(s, line, reply, InvalidStructuredError);
    case StructuredError(e, retryable) =>
      WorkerErrorIsExact(s, reply.id, e, retryable);
      AnsweredKeeps(s, line, reply, WorkerErrorFor(s.pending[reply.id], e, retryable));
    case Value(v) => AnsweredKeeps(s, line, reply, Resolved(v));
  }

  /** One line off stdout, whatever it says. */
  lemma RespondKeeps(s: State, line: Bytes, reply: Reply)
    requires Steady(s) && !s.cleaned
    ensures Steady(Respond(Take(s, line, reply), reply))
  {
    if !reply.Envelope? {
      FaultKeeps(s, line, reply, EnvelopeFault(reply));
    } else if reply.id in s.pending {
      KnownKeeps(s, line, reply);
    } else if reply.id in s.abandoned {
      AbsorbSteady(s, line, reply);
    } else {
      FaultKeeps(s, line, reply, UnknownResponseId);
    }
  }

  lemma HandleLineKeeps(parse: Parser, s: State, line: Bytes)
    requires Steady(s) && !s.cleaned
    ensures Steady(HandleLine(parse, s, line))
  {
    RespondKeeps(s, line, parse(StripCarriageReturn(line)));
  }

  lemma EndOfBufferKeeps(s: State)
    requires Steady(s) && NewlineAt(s.buffer) == |s.buffer|
    ensures Inv(EndOfBuffer(s))
  {
    if |s.buffer| > MAX_STDOUT_LINE_BYTES { PoisonKeeps(s, OutputTooLarge); }
  }

  lemma RebufferKeeps(s: State, buffer: Bytes)
    requires Steady(s)
    ensures Steady(s.(buffer := buffer))
  {
  }

  lemma TakeLineKeeps(parse: Parser, s: State)
    requires Steady(s) && !s.cleaned && NewlineAt(s.buffer) < |s.buffer|
    ensures Steady(TakeLine(parse, s))
  {
    var i := NewlineAt(s.buffer);
    var rest := s.(buffer := s.buffer[i + 1..]);
    RebufferKeeps(s, s.buffer[i + 1..]);
    if i > MAX_STDOUT_LINE_BYTES {
      PoisonKeeps(rest, OutputTooLarge);
    } else {
      HandleLineKeeps(parse, rest, s.buffer[..i]);
    }
  }

  lemma {:induction false} PumpKeeps(parse: Parser, s: State)
    requires Steady(s) && !s.cleaned
    ensures Inv(Pump(parse, s))
    decreases |s.buffer|
  {
    if NewlineAt(s.buffer) == |s.buffer| {
      EndOfBufferKeeps(s);
    } else {
      TakeLineKeeps(parse, s);
      var t := TakeLine(parse, s);
      if !t.cleaned { PumpKeeps(parse, t); }
    }
  }

  lemma StdoutKeeps(parse: Parser, s: State, chunk: Bytes)
    requires Inv(s)
    ensures Inv(Stdout(parse, s, chunk))
  {
    var t := s.(buffer := s.buffer + chunk);
    RebufferKeeps(s, s.buffer + chunk);
    if |s.buffer| + |chunk| > MAX_STDOUT_LINE_BYTES && NEWLINE !in chunk {
      PoisonKeeps(s, OutputTooLarge);
    } else if |t.buffer| > MAX_STDOUT_LINE_BYTES && NEWLINE !in t.buffer {
      PoisonKeeps(t, OutputTooLarge);
    } else if !s.cleaned {
      PumpKeeps(parse, t);
    } else {
      PumpInert(parse, t);
    }
  }

  lemma RespondInert(s: State, reply: Reply)
    requires s.cleaned && s.pending == map[] && s.abandoned == []
    ensures Respond(s, reply) == s
  {
  }

  /** Bytes arriving after poisoning are dropped: at most the buffer changes. */
  lemma PumpInert(parse: Parser, s: State)
    requires s.cleaned && s.pending == map[] && s.abandoned == []
    ensures Pump(parse, s).(buffer := s.buffer) == s
  {
    var i := NewlineAt(s.buffer);
    if i < |s.buffer| {
      var rest := s.(buffer := s.buffer[i + 1..]);
      RespondInert(rest, parse(StripCarriageReturn(s.buffer[..i])));
      assert TakeLine(parse, s) == rest;
    }
  }

  // ---------------------------------------------------------------- the child's life

  lemma RecalledKeeps(s: State)
    requires Inv(s) && !s.childStarted
    ensures Books(Recalled(s)) && Reports(Recalled(s)) && (s.cleaned ==> Recalled(s) == s.(spawnFailed := true))
  {
  }

  lemma RecalledSteady(s: State)
    requires Inv(s) && s.cleaned && !s.childStarted
    ensures Inv(s.(spawnFailed := true))
  {
  }

  lemma ChildErrorKeeps(s: State)
    requires Inv(s)
    ensures Inv(ChildError(s))
  {
    if s.child {
      if s.childStarted {
        PoisonKeeps(s, SpawnFailed);
      } else {
        RecalledKeeps(s);
        if s.cleaned { RecalledSteady(s); }
        PoisonKeeps(Recalled(s), SpawnFailed);
      }
    }
  }

  lemma SpawnedKeeps(s: State)
    requires Inv(s)
    ensures Inv(Spawned(s))
  {
  }

  lemma ChildCloseKeeps(s: State)
    requires Inv(s)
    ensures Inv(ChildClose(s))
  {
    if s.child {
      PoisonKeeps(Gone(s), ChildExited);
    }
  }

  lemma CloseKeeps(s: State)
    requires Inv(s)
    ensures Inv(Close(s))
  {
    if s.closing.NotRequested? {
      if !s.child || s.childClosed {
        PoisonKeeps(s, Closed);
        ConfirmedKeeps(Poison(s, Closed));
      } else {
        ClosingKeeps(s);
      }
    }
  }

  lemma ConfirmedKeeps(s: State)
    requires Inv(s) && s.cleaned && (!s.child || s.childClosed)
    ensures Inv(s.(closing := ExitConfirmed))
  {
  }

  lemma ClosingKeeps(s: State)
    requires Inv(s) && s.closing.NotRequested?
    ensures Inv(Poison(s.(closing := Waiting), Closed))
  {
    PoisonKeeps(s.(closing := Waiting), Closed);
  }

  // ---------------------------------------------------------------- every event, every history

  lemma ShutdownDeadlineKeeps(s: State)
    requires Inv(s)
    ensures Inv(ShutdownDeadline(s))
  {
  }

  predicate FromPipes(e: Event) {
    e.EvWriteDone? || e.EvDrain? || e.EvStdout? || e.EvStdinError? || e.EvStdoutError?
  }

  lemma PipeStepKeeps(parse: Parser, s: State, e: Event)
    requires Inv(s) && FromPipes(e)
    ensures Inv(Step(parse, s, e))
  {
    match e
    case EvWriteDone(ok, w) => WriteDoneKeeps(s, ok, w);
    case EvDrain(w) => DrainedKeeps(s, w);
    case EvStdout(chunk) => if s.child { StdoutKeeps(parse, s, chunk); }
    case EvStdinError => if s.child { PoisonKeeps(s, RequestWriteFailed); }
    case EvStdoutError => if s.child { PoisonKeeps(s, ResponseReadFailed); }
  }

  lemma StepKeeps(parse: Parser, s: State, e: Event)
    requires Inv(s)
    ensures Inv(Step(parse, s, e))
  {
    match e
    case EvRequest(r) => RequestKeeps(s, r);
    case EvAbort(id, w) => AbortKeeps(s, id, w);
    case EvTimeout(id, w) => TimedOutKeeps(s, id, w);
    case EvSpawned => SpawnedKeeps(s);
    case EvChildError => ChildErrorKeeps(s);
    case EvChildClose => ChildCloseKeeps(s);
    case EvClose => CloseKeeps(s);
    case EvShutdownDeadline => ShutdownDeadlineKeeps(s);
    case _ => PipeStepKeeps(parse, s, e);
  }

  lemma {:induction false} RunKeeps(parse: Parser, events: seq<Event>)
    ensures Inv(Run(parse, events))
  {
    if events == [] {
      assert QueueIds([]) == {};
    } else {
      RunKeeps(parse, Front(events));
      StepKeeps(parse, Run(parse, Front(events)), Last(events));
    }
  }
}
