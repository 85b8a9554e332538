/** The knock doorman with its Host calls cut at their awaits: a call goes out in one event, its answer
    comes back in another, and anything may happen in between.  What an answer writes back, it writes
    into the state of the moment, as the source does; `guarded` asks first whether the knock the call
    was made for is still the open one, which the source does not. */
module KnockOverlap {
  import opened Basics
  import opened KnockModel
  import opened KnockTheorems

  // ---------------------------------------------------------------- calls under way

  datatype Stage = AwaitStart | AwaitCompletion

  /** The knock a call was made for, and what its handler does when the call has been answered: go on to
      the interruption, free the claim lock. */
  datatype Settlement = Settlement(knock: Knock, stage: Stage, interrupts: bool, frees: bool)

  datatype Failure = Failure(knock: Knock, frees: bool)

  datatype Claiming = Free | Asking | Handing

  datatype Overlap = Overlap(core: State, settling: Option<Settlement>, failing: seq<Failure>, claiming: Claiming)

  const AT_REST := Overlap(INITIAL, None, [], Free)

  function Done(o: Overlap, frees: bool): Overlap {
    if frees then o.(claiming := Free) else o
  }

  function FailCall(o: Overlap, frees: bool): Overlap {
    if o.core.active.None? then Done(o, frees)
    else o.(failing := o.failing + [Failure(o.core.active.value, frees)])
  }

  function InterruptCall(o: Overlap, c: Session, frees: bool): Overlap {
    var s := o.core;
    if s.active.None? || !s.interruptRequested || s.interruptSent || !s.startSettled then Done(o, frees)
    else if !c.canAbort || c.abortThrows then FailCall(o, frees)
    else Done(o.(core := Note(s.(interruptSent := true), Interrupted(s.active.value))), frees)
  }

  /** What a handler does after its settlement has been answered. */
  function GoOn(o: Overlap, c: Session, interrupts: bool, frees: bool): Overlap {
    if interrupts then InterruptCall(o, c, frees) else Done(o, frees)
  }

  predicate TurnOver(s: State) {
    s.turnStarted && s.turnEnded
  }

  function CompleteCall(o: Overlap, c: Session, q: Settlement): Overlap {
    if TurnOver(o.core) then o.(settling := Some(q.(stage := AwaitCompletion)))
    else GoOn(o.(settling := None), c, q.interrupts, q.frees)
  }

  function SettleCall(o: Overlap, c: Session, interrupts: bool, frees: bool): Overlap {
    if o.core.active.None? || o.settling.Some? then GoOn(o, c, interrupts, frees)
    else
      var q := Settlement(o.core.active.value, AwaitStart, interrupts, frees);
      if !o.core.startSettled then o.(settling := Some(q)) else CompleteCall(o, c, q)
  }

  function DeliverCall(o: Overlap, now: int, c: Session, frees: bool): Overlap {
    if o.core.active.None? || o.core.delivered || (!c.idle && !c.canAbort) then Done(o, frees)
    else if c.sendThrows then FailCall(o, frees)
    else SettleCall(o.(core := HandOver(o.core, now, c.idle)), c, true, frees)
  }

  // ---------------------------------------------------------------- answers

  /** Whether the write-back of a call made for this knock takes place. */
  predicate Writes(guarded: bool, s: State, knock: Knock) {
    !guarded || s.active == Some(knock)
  }

  function StartReturn(guarded: bool, o: Overlap, acked: bool, c: Session): Overlap {
    if o.settling.None? || !o.settling.value.stage.AwaitStart? then o
    else
      var q := o.settling.value;
      var t := o.(core := Note(o.core, Settling(q.knock, KnockModel.Started, acked)));
      if !acked || !Writes(guarded, o.core, q.knock) then GoOn(t.(settling := None), c, q.interrupts, q.frees)
      else CompleteCall(t.(core := t.core.(startSettled := true)), c, q)
  }

  function CompletionReturn(guarded: bool, o: Overlap, acked: bool, c: Session): Overlap {
    if o.settling.None? || !o.settling.value.stage.AwaitCompletion? then o
    else
      var q := o.settling.value;
      var noted := Note(o.core, Settling(q.knock, Completed, acked));
      var t := if acked && Writes(guarded, o.core, q.knock) then Clear(noted) else noted;
      GoOn(o.(core := t, settling := None), c, q.interrupts, q.frees)
  }

  function FailReturn(guarded: bool, o: Overlap, i: nat, acked: bool): Overlap {
    if i >= |o.failing| then o
    else
      var q := o.failing[i];
      var noted := Note(o.core, Settling(q.knock, Failed, acked));
      var t := if Writes(guarded, o.core, q.knock) then Clear(noted) else noted;
      Done(o.(core := t, failing := o.failing[..i] + o.failing[i + 1..]), q.frees)
  }

  function ClaimReturn(o: Overlap, now: int, c: Session, claim: Claim): Overlap {
    if !o.claiming.Asking? then o
    else
      match claim
      case ClaimFails =>
        var failures := o.core.claimFailures + 1;
        o.(core := o.core.(claimFailures := failures, nextClaimAt := now + Backoff(failures)), claiming := Free)
      case NoKnock => o.(core := o.core.(claimFailures := 0, nextClaimAt := 0), claiming := Free)
      case Granted(k) =>
        var s := Note(Clear(o.core.(claimFailures := 0, nextClaimAt := 0)).(active := Some(k)), Claimed(k));
        DeliverCall(o.(core := s, claiming := Handing), now, c, true)
  }

  // ---------------------------------------------------------------- events

  function TickCall(o: Overlap, now: int, c: Session): Overlap {
    if o.core.active.None? then
      if !o.claiming.Free? || now < o.core.nextClaimAt || (!c.idle && !c.canAbort) then o
      else o.(claiming := Asking)
    else if !o.core.delivered then DeliverCall(o, now, c, false)
    else if Overdue(o.core, now) then FailCall(o, false)
    else SettleCall(o, c, true, false)
  }

  function TurnStartCall(o: Overlap, knock: Knock, c: Session): Overlap {
    if o.core.active != Some(knock) || !o.core.delivered || o.core.turnStarted then o
    else SettleCall(o.(core := Note(o.core.(turnStarted := true), Began(knock, true))), c, false, false)
  }

  function TurnEndCall(o: Overlap, now: int, c: Session): Overlap {
    var s := o.core;
    if s.active.None? then o
    else if !s.turnStarted && s.interruptSent && !s.interruptedTurnEnded then
      o.(core := Note(s.(interruptedTurnEnded := true), Consumed(s.active.value)))
    else SettleCall(o.(core := MarkEnded(s, now)), c, false, false)
  }

  datatype Call =
    | OnTick(now: int, session: Session)
    | OnClaim(now: int, session: Session, claim: Claim)
    | OnStart(acked: bool, session: Session)
    | OnCompletion(acked: bool, session: Session)
    | OnFailure(i: nat, acked: bool)
    | OnTurnStart(knock: Knock, session: Session)
    | OnTurnEnd(now: int, session: Session)
    | OnRetired

  function Next(guarded: bool, o: Overlap, e: Call): Overlap {
    match e
    case OnTick(now, c) => TickCall(o, now, c)
    case OnClaim(now, c, claim) => ClaimReturn(o, now, c, claim)
    case OnStart(acked, c) => StartReturn(guarded, o, acked, c)
    case OnCompletion(acked, c) => CompletionReturn(guarded, o, acked, c)
    case OnFailure(i, acked) => FailReturn(guarded, o, i, acked)
    case OnTurnStart(knock, c) => TurnStartCall(o, knock, c)
    case OnTurnEnd(now, c) => TurnEndCall(o, now, c)
    case OnRetired => FailCall(o, false)
  }

  function Course(guarded: bool, events: seq<Call>): Overlap {
    if events == [] then AT_REST else Next(guarded, Course(guarded, Front(events)), Last(events))
  }

  // ---------------------------------------------------------------- what became of a knock

  /** The knocks claimed and not settled since: neither completed with acknowledgement, nor answered
      after an attempt to fail them. */
  function Unsettled(t: seq<Entry>): set<Knock> {
    if t == [] then {}
    else
      var e, before := Last(t), Unsettled(Front(t));
      if e.Claimed? then before + {e.knock} else if Ends(e, e.knock) then before - {e.knock} else before
  }

  /** The knocks whose start was acknowledged since they were claimed. */
  function Acknowledged(t: seq<Entry>): set<Knock> {
    if t == [] then {}
    else
      var e, before := Last(t), Acknowledged(Front(t));
      if e.Claimed? then before - {e.knock}
      else if e.Settling? && e.outcome.Started? && e.acked then before + {e.knock}
      else before
  }

  lemma Grows(t: seq<Entry>, e: Entry)
    ensures Unsettled(t + [e]) == if e.Claimed? then Unsettled(t) + {e.knock}
                                  else if Ends(e, e.knock) then Unsettled(t) - {e.knock} else Unsettled(t)
    ensures Acknowledged(t + [e])
         == if e.Claimed? then Acknowledged(t) - {e.knock}
            else if e.Settling? && e.outcome.Started? && e.acked then Acknowledged(t) + {e.knock}
            else Acknowledged(t)
  {
    Snoc(t, e);
  }

  ghost predicate Failing(o: Overlap, knock: Knock) {
    exists j :: 0 <= j < |o.failing| && o.failing[j].knock == knock
  }

  /** Claimed, not settled, and nobody holds it any more: it is not open, and no failure is on its way. */
  ghost predicate Lost(o: Overlap, knock: Knock) {
    knock in Unsettled(o.core.trace) && o.core.active != Some(knock) && !Failing(o, knock)
  }

  /** The doorman takes the start of its open knock for acknowledged only when it was. */
  ghost predicate StartTrue(o: Overlap) {
    o.core.active.Some? && o.core.startSettled ==> o.core.active.value in Acknowledged(o.core.trace)
  }

  /** The open knock is unsettled; none is open while a claim is asked for; and while a settlement of
      another knock is under way the open one's start was not acknowledged. */
  ghost predicate Holds(o: Overlap) {
    && (o.core.active.Some? ==> o.core.active.value in Unsettled(o.core.trace))
    && (o.claiming.Asking? ==> o.core.active.None?)
    && (o.settling.Some? && o.core.active.Some? && o.settling.value.knock != o.core.active.value ==>
          o.core.active.value !in Acknowledged(o.core.trace))
  }
}
