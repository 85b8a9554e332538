/** What the knock doorman keeps: a claimed knock is held until it is completed or failed. */
module KnockTheorems {
  import opened Basics
  import opened KnockModel

  // ---------------------------------------------------------------- the law of the trace

  /** Where the open knock stands, as an observer of the trace sees it. */
  datatype Progress = Progress(open: Option<Knock>, delivered: bool, startAcked: bool, began: bool, ended: bool,
                               interrupted: bool, consumed: bool)

  const REST := Progress(None, false, false, false, false, false, false)

  function After(p: Progress, e: Entry): Progress {
    match e
    case Claimed(k) => REST.(open := Some(k))
    case Delivered(_) => REST.(open := p.open, delivered := true)
    case Settling(_, outcome, acked) =>
      (match outcome
       case Started => p.(startAcked := p.startAcked || acked)
       case Completed => if acked then REST else p
       case Failed => REST)
    case Interrupted(_) => p.(interrupted := true)
    case Began(_, _) => p.(began := true)
    case Ended(_) => p.(ended := true)
    case Consumed(_) => p.(consumed := true)
  }

  /** A claim only at rest; everything else is about the open knock.  Completion needs an acknowledged
      start and both turn marks; after an interruption the first turn end seen before any start is
      consumed, and only a later one can stand for a turn of the knock. */
  predicate Lawful(p: Progress, e: Entry) {
    if e.Claimed? then p.open.None?
    else
      p.open == Some(e.knock) &&
      match e
      case Claimed(_) => false
      case Delivered(_) => !p.delivered
      case Settling(_, outcome, _) =>
        (match outcome
         case Started => !p.startAcked
         case Completed => p.startAcked && p.began && p.ended
         case Failed => true)
      case Interrupted(_) => p.startAcked && !p.interrupted
      case Began(_, seen) => !p.began && (seen || !p.interrupted || p.consumed)
      case Ended(_) => p.began
      case Consumed(_) => p.interrupted && !p.consumed && !p.began
  }

  function Reached(t: seq<Entry>): Progress {
    if t == [] then REST else After(Reached(Front(t)), Last(t))
  }

  predicate AllLawful(t: seq<Entry>) {
    t == [] || (AllLawful(Front(t)) && Lawful(Reached(Front(t)), Last(t)))
  }

  // ---------------------------------------------------------------- the invariant

  /** The flags say where the trace stands. */
  ghost predicate Inv(s: State) {
    var p := Reached(s.trace);
    && AllLawful(s.trace)
    && p.open == s.active && p.delivered == s.delivered && p.startAcked == s.startSettled
    && p.began == s.turnStarted && p.ended == s.turnEnded
    && p.interrupted == s.interruptSent && p.consumed == s.interruptedTurnEnded
    && (s.active.None? ==> p == REST)
    && (p.ended ==> p.began)
  }

  lemma NoteLaw(s: State, e: Entry)
    requires AllLawful(s.trace) && Lawful(Reached(s.trace), e)
    ensures AllLawful(Note(s, e).trace) && Reached(Note(s, e).trace) == After(Reached(s.trace), e)
  {
    Snoc(s.trace, e);
  }

  lemma FailKeeps(s: State, h: Host)
    requires Inv(s)
    ensures Inv(FailActive(s, h)) && FailActive(s, h).active.None?
  {
    if s.active.Some? { NoteLaw(s, Settling(s.active.value, Failed, h.failed)); }
  }

  lemma InterruptKeeps(s: State, c: Session, h: Host)
    requires Inv(s)
    ensures Inv(InterruptActive(s, c, h))
  {
    FailKeeps(s, h);
    if s.active.Some? && s.startSettled && !s.interruptSent {
      NoteLaw(s, Interrupted(s.active.value));
    }
  }

  lemma SettleStartKeeps(s: State, h: Host)
    requires Inv(s) && s.active.Some?
    ensures Inv(SettleStart(s, h)) && SettleStart(s, h).active == s.active
  {
    if !s.startSettled { NoteLaw(s, Settling(s.active.value, Started, h.started)); }
  }

  lemma SettleKeeps(s: State, h: Host)
    requires Inv(s)
    ensures Inv(SettleObserved(s, h))
  {
    if s.active.Some? {
      var t := SettleStart(s, h);
      SettleStartKeeps(s, h);
      if t.startSettled && t.turnStarted && t.turnEnded {
        NoteLaw(t, Settling(t.active.value, Completed, h.completed));
      }
    }
  }

  lemma HandOverKeeps(s: State, now: int, idle: bool)
    requires Inv(s) && s.active.Some? && !s.delivered
    ensures Inv(HandOver(s, now, idle))
  {
    NoteLaw(s, Delivered(s.active.value));
  }

  lemma DeliverKeeps(s: State, now: int, idle: bool, c: Session, h: Host)
    requires Inv(s)
    ensures Inv(DeliverActive(s, now, idle, c, h))
  {
    FailKeeps(s, h);
    if s.active.Some? && !s.delivered {
      HandOverKeeps(s, now, idle);
      SettleKeeps(HandOver(s, now, idle), h);
      InterruptKeeps(SettleObserved(HandOver(s, now, idle), h), c, h);
    }
  }

  lemma ClaimKeeps(s: State, now: int, c: Session, h: Host)
    requires Inv(s) && s.active.None?
    ensures Inv(ClaimNext(s, now, c, h))
  {
    if h.claim.Granted? {
      var k := h.claim.knock;
      var t := Clear(s.(claimFailures := 0, nextClaimAt := 0)).(active := Some(k));
      NoteLaw(t, Claimed(k));
      DeliverKeeps(Note(t, Claimed(k)), now, c.idleLater, c, h);
    }
  }

  lemma TickKeeps(s: State, now: int, c: Session, h: Host)
    requires Inv(s)
    ensures Inv(Tick(s, now, c, h))
  {
    if s.active.None? {
      ClaimKeeps(s, now, c, h);
    } else if !s.delivered {
      DeliverKeeps(s, now, c.idle, c, h);
    } else if Overdue(s, now) {
      FailKeeps(s, h);
    } else {
      SettleKeeps(s, h);
      InterruptKeeps(SettleObserved(s, h), c, h);
    }
  }

  lemma TurnStartKeeps(s: State, knock: Knock, h: Host)
    requires Inv(s)
    ensures Inv(TurnStart(s, knock, h))
  {
    if s.active == Some(knock) && s.delivered && !s.turnStarted {
      NoteLaw(s.(turnStarted := true), Began(knock, true));
      SettleKeeps(Note(s.(turnStarted := true), Began(knock, true)), h);
    }
  }

  lemma TurnEndKeeps(s: State, now: int, h: Host)
    requires Inv(s)
    ensures Inv(TurnEnd(s, now, h))
  {
    if s.active.Some? {
      if !s.turnStarted && s.interruptSent && !s.interruptedTurnEnded {
        NoteLaw(s, Consumed(s.active.value));
      } else {
        MarkEndedKeeps(s, now);
        SettleKeeps(MarkEnded(s, now), h);
      }
    }
  }

  lemma MarkEndedKeeps(s: State, now: int)
    requires Inv(s) && s.active.Some? && (s.turnStarted || !s.interruptSent || s.interruptedTurnEnded)
    ensures Inv(MarkEnded(s, now))
  {
    if !s.turnStarted { NoteLaw(s, Began(s.active.value, false)); }
    var began := if s.turnStarted then s else Note(s.(turnStarted := true), Began(s.active.value, false));
    NoteLaw(began, Ended(s.active.value));
  }

  lemma StepKeeps(s: State, e: Event)
    requires Inv(s)
    ensures Inv(Step(s, e))
  {
    match e
    case EvTick(now, c, h) => TickKeeps(s, now, c, h);
    case EvTurnStart(knock, h) => TurnStartKeeps(s, knock, h);
    case EvTurnEnd(now, h) => TurnEndKeeps(s, now, h);
    case EvRetired(h) => FailKeeps(s, h);
  }

  lemma {:induction false} RunKeeps(events: seq<Event>)
    ensures Inv(Run(events))
  {
    if events != [] {
      RunKeeps(Front(events));
      StepKeeps(Run(Front(events)), Last(events));
    }
  }

  // ---------------------------------------------------------------- reading a lawful trace

  lemma {:induction false} LawfulPrefix(t: seq<Entry>, k: nat)
    requires AllLawful(t) && k < |t|
    ensures AllLawful(t[..k]) && Lawful(Reached(t[..k]), t[k])
  {
    if k == |t| - 1 {
      assert t[..k] == Front(t);
    } else {
      LawfulPrefix(Front(t), k);
      assert Front(t)[..k] == t[..k];
    }
  }

  predicate Ends(e: Entry, knock: Knock) {
    e.Settling? && e.knock == knock && (e.outcome.Failed? || (e.outcome.Completed? && e.acked))
  }

  lemma {:induction false} ClaimEnded(t: seq<Entry>, j: nat) returns (m: nat)
    requires AllLawful(t) && j < |t| && t[j].Claimed? && Reached(t).open != Some(t[j].knock)
    ensures j < m < |t| && Ends(t[m], t[j].knock)
  {
    var f := Front(t);
    assert j < |f| ==> f[j] == t[j];
    if j < |f| && Reached(f).open == Some(t[j].knock) {
      m := |t| - 1;
    } else {
      m := ClaimEnded(f, j);
    }
  }

  /** No claimed knock is overwritten or forgotten: before the next claim there was an acknowledged
      completion or an attempt to settle it as failed. */
  lemma ClaimsDoNotOverlap(events: seq<Event>, j: nat, k: nat) returns (m: nat)
    requires j < k < |Run(events).trace| && Run(events).trace[j].Claimed? && Run(events).trace[k].Claimed?
    ensures j < m < k && Ends(Run(events).trace[m], Run(events).trace[j].knock)
  {
    var t := Run(events).trace;
    RunKeeps(events);
    LawfulPrefix(t, k);
    m := ClaimEnded(t[..k], j);
  }

  /** At rest the doorman has settled every knock it ever claimed. */
  lemma RestMeansSettled(events: seq<Event>, j: nat) returns (m: nat)
    requires Run(events).active.None? && j < |Run(events).trace| && Run(events).trace[j].Claimed?
    ensures j < m < |Run(events).trace| && Ends(Run(events).trace[m], Run(events).trace[j].knock)
  {
    RunKeeps(events);
    m := ClaimEnded(Run(events).trace, j);
  }

  /** The entry stands at this place and nothing was claimed later. */
  ghost predicate StandsAt(t: seq<Entry>, i: int, e: Entry) {
    0 <= i < |t| && t[i] == e && forall k :: i < k < |t| ==> !t[k].Claimed?
  }

  ghost predicate Stands(t: seq<Entry>, e: Entry) {
    exists i :: StandsAt(t, i, e)
  }

  /** Since the claim of the open knock: an acknowledged start, a begun turn, an ended turn. */
  ghost predicate Earned(t: seq<Entry>, knock: Knock) {
    && Stands(t, Claimed(knock)) && Stands(t, Settling(knock, Started, true))
    && (Stands(t, Began(knock, true)) || Stands(t, Began(knock, false))) && Stands(t, Ended(knock))
  }

  lemma StandsLonger(t: seq<Entry>, e: Entry)
    requires t != [] && Stands(Front(t), e) && !Last(t).Claimed?
    ensures Stands(t, e)
  {
    var i :| StandsAt(Front(t), i, e);
    assert forall k :: 0 <= k < |t| - 1 ==> t[k] == Front(t)[k];
    assert StandsAt(t, i, e);
  }

  lemma StandsLast(t: seq<Entry>)
    requires t != []
    ensures Stands(t, Last(t))
  {
    assert StandsAt(t, |t| - 1, Last(t));
  }

  /** Every mark of the open knock stands in the trace, since its claim. */
  ghost predicate Marked(t: seq<Entry>, p: Progress, knock: Knock) {
    && Stands(t, Claimed(knock))
    && (p.startAcked ==> Stands(t, Settling(knock, Started, true)))
    && (p.began ==> Stands(t, Began(knock, true)) || Stands(t, Began(knock, false)))
    && (p.ended ==> Stands(t, Ended(knock)))
    && (p.delivered ==> Stands(t, Delivered(knock)))
  }

  lemma MarkedLonger(t: seq<Entry>, p: Progress, knock: Knock)
    requires t != [] && !Last(t).Claimed? && Marked(Front(t), p, knock)
    ensures Marked(t, p, knock)
  {
    forall e | Stands(Front(t), e) ensures Stands(t, e) { StandsLonger(t, e); }
  }

  lemma MarkedAfter(t: seq<Entry>, p: Progress, e: Entry)
    requires t != [] && e == Last(t) && Stands(t, e) && Lawful(p, e) && After(p, e).open.Some?
    requires p.open.Some? ==> Marked(Front(t), p, p.open.value)
    ensures Marked(t, After(p, e), After(p, e).open.value)
  {
    if !e.Claimed? { MarkedLonger(t, p, p.open.value); }
  }

  lemma {:induction false} ProgressIsReal(t: seq<Entry>)
    requires AllLawful(t)
    ensures Reached(t).open.Some? ==> Marked(t, Reached(t), Reached(t).open.value)
  {
    if t != [] && Reached(t).open.Some? {
      ProgressIsReal(Front(t));
      StandsLast(t);
      MarkedAfter(t, Reached(Front(t)), Last(t));
    }
  }

  /** "Completed" is sent only for a knock whose start the Host acknowledged and whose turn was marked
      begun and ended, all since it was claimed. */
  lemma CompletionIsEarned(events: seq<Event>, m: nat)
    requires m < |Run(events).trace|
    requires Run(events).trace[m].Settling? && Run(events).trace[m].outcome.Completed?
    ensures Earned(Run(events).trace[..m], Run(events).trace[m].knock)
  {
    RunKeeps(events);
    LawfulPrefix(Run(events).trace, m);
    ProgressIsReal(Run(events).trace[..m]);
  }

  /** After an interrupt the first turn end seen before the knock's own start completes nothing. */
  lemma InterruptedTurnIsConsumed(s: State, now: int, h: Host)
    requires Inv(s) && s.interruptSent && !s.turnStarted && !s.interruptedTurnEnded
    ensures var t := TurnEnd(s, now, h);
            && t.active == s.active && t.active.Some? && !t.turnStarted && !t.turnEnded
            && t.trace == s.trace + [Consumed(s.active.value)]
            && TurnEnd(t, now, h) == SettleObserved(MarkEnded(t, now), h)
  {
    NoteLaw(s, Consumed(s.active.value));
  }

  predicate StartKnown(s: State, h: Host) {
    s.startSettled || h.started
  }

  predicate CompletesNow(s: State, h: Host) {
    StartKnown(s, h) && s.turnStarted && s.turnEnded && h.completed
  }

  predicate InterruptBreaks(s: State, c: Session, h: Host) {
    StartKnown(s, h) && s.interruptRequested && !s.interruptSent && (!c.canAbort || c.abortThrows)
  }

  /** 25 seconds after delivery without an acknowledged start; a minute after it without a turn begun;
      25 seconds after the end of a turn. */
  predicate PastDeadline(s: State, now: int) {
    || (!s.startSettled && s.deliveredAt.Some? && now >= s.deliveredAt.value + 25_000)
    || (!s.turnStarted && s.deliveredAt.Some? && now >= s.deliveredAt.value + 60_000)
    || (s.turnEnded && s.turnEndedAt.Some? && now >= s.turnEndedAt.value + 25_000)
  }

  /** A poll lets go of a delivered knock exactly when a deadline has passed, its earned completion is
      acknowledged, or the interruption it needs cannot be had; otherwise it is still the same knock. */
  lemma TickLetsGoIff(s: State, now: int, c: Session, h: Host)
    requires Inv(s) && s.active.Some? && s.delivered
    ensures var t := Tick(s, now, c, h);
            && (t.active.None? <==> PastDeadline(s, now) || CompletesNow(s, h) || InterruptBreaks(s, c, h))
            && (t.active.Some? ==> t.active == s.active)
            && (PastDeadline(s, now) ==> t.trace == s.trace + [Settling(s.active.value, Failed, h.failed)])
  {
    assert Overdue(s, now) <==> PastDeadline(s, now);
    if !Overdue(s, now) {
      var t := SettleStart(s, h);
      assert t.startSettled == StartKnown(s, h) && t.active == s.active;
      var u := SettleObserved(s, h);
      assert u.active.None? <==> CompletesNow(s, h);
      if u.active.Some? { assert u.startSettled == StartKnown(s, h) && u.interruptRequested == s.interruptRequested; }
    }
  }

  /** A poll interrupts the session's turn exactly for a delivered knock that was handed to a busy session, once
      its start is known, and unless it was interrupted, completed or overdue already. */
  lemma InterruptsIff(s: State, now: int, c: Session, h: Host)
    requires Inv(s) && s.active.Some? && s.delivered
    ensures var t := Tick(s, now, c, h);
            (t.trace != [] && Last(t.trace) == Interrupted(s.active.value) && |t.trace| > |s.trace|)
            <==> && !PastDeadline(s, now) && !CompletesNow(s, h) && StartKnown(s, h)
                 && s.interruptRequested && !s.interruptSent && c.canAbort && !c.abortThrows
  {
    assert Overdue(s, now) <==> PastDeadline(s, now);
    if !Overdue(s, now) {
      var u := SettleObserved(s, h);
      SettledSays(s, h);
      assert Tick(s, now, c, h) == InterruptActive(u, c, h);
    }
  }

  lemma SettledSays(s: State, h: Host)
    requires s.active.Some?
    ensures var u := SettleObserved(s, h);
            && |s.trace| <= |u.trace| && (|u.trace| > |s.trace| ==> Last(u.trace).Settling?)
            && (u.active.None? <==> CompletesNow(s, h))
            && (u.active.Some? ==>
                  && u.active == s.active && u.startSettled == StartKnown(s, h)
                  && u.interruptRequested == s.interruptRequested && u.interruptSent == s.interruptSent)
  {
  }

  /** An open knock not yet delivered is handed over by a poll that finds the session idle or can interrupt it,
      and noted with its time and whether the session was busy. */
  lemma DeliveryIsNoted(s: State, now: int, c: Session, h: Host)
    requires s.active.Some? && !s.delivered
    ensures var t := Tick(s, now, c, h);
            if !c.idle && !c.canAbort then t == s
            else if c.sendThrows then
              t.active.None? && t.trace == s.trace + [Settling(s.active.value, Failed, h.failed)]
            else
              && |t.trace| > |s.trace| && t.trace[|s.trace|] == Delivered(s.active.value)
              && (t.active.Some? ==>
                    && t.active == s.active && t.delivered && t.deliveredAt == Some(now)
                    && (t.interruptRequested <==> !c.idle) && (t.startSettled <==> h.started)
                    && !t.turnStarted && !t.turnEnded && !t.interruptedTurnEnded
                    && (t.interruptSent <==> h.started && !c.idle))
  {
    if (c.idle || c.canAbort) && !c.sendThrows {
      var u := HandOver(s, now, c.idle);
      SettledSays(u, h);
      HandedOn(u, c, h);
      assert Tick(s, now, c, h) == InterruptActive(SettleObserved(u, h), c, h);
    }
  }

  /** A claim granted to a poll that may claim opens that knock, with no mark left of any other, and hands it
      over at once if the session is idle by then or can be interrupted. */
  lemma GrantOpens(s: State, now: int, c: Session, h: Host)
    requires s.active.None? && h.claim.Granted? && now >= s.nextClaimAt && (c.idle || c.canAbort)
    ensures var t, k, n := Tick(s, now, c, h), h.claim.knock, |s.trace|;
            && |t.trace| > n && t.trace[..n] == s.trace && t.trace[n] == Claimed(k)
            && (if !c.idleLater && !c.canAbort then t == INITIAL.(active := Some(k), trace := s.trace + [Claimed(k)])
                else if c.sendThrows then t == INITIAL.(trace := s.trace + [Claimed(k), Settling(k, Failed, h.failed)])
                else
                  && |t.trace| > n + 1 && t.trace[n + 1] == Delivered(k)
                  && (t.active.Some? ==> t.active == Some(k) && t.delivered && t.deliveredAt == Some(now)
                                         && (t.interruptRequested <==> !c.idleLater)))
  {
    var k := h.claim.knock;
    var granted := INITIAL.(active := Some(k), trace := s.trace + [Claimed(k)]);
    assert Tick(s, now, c, h) == DeliverActive(granted, now, c.idleLater, c, h);
    if (c.idleLater || c.canAbort) && !c.sendThrows {
      var u := HandOver(granted, now, c.idleLater);
      SettledSays(u, h);
      HandedOn(u, c, h);
      assert Tick(s, now, c, h) == InterruptActive(SettleObserved(u, h), c, h);
    }
  }

  /** The delivery is kept in mind while the knock stays open. */
  predicate Remembers(u: State, t: State) {
    && u.trace <= t.trace
    && (t.active.Some? ==> t.deliveredAt == u.deliveredAt && t.interruptRequested == u.interruptRequested)
  }

  lemma SettleRemembers(u: State, h: Host)
    requires u.active.Some?
    ensures Remembers(u, SettleObserved(u, h))
  {
  }

  lemma InterruptRemembers(u: State, c: Session, h: Host)
    ensures Remembers(u, InterruptActive(u, c, h))
  {
  }

  lemma HandedOn(u: State, c: Session, h: Host)
    requires u.active.Some?
    ensures Remembers(u, InterruptActive(SettleObserved(u, h), c, h))
  {
    SettleRemembers(u, h);
    InterruptRemembers(SettleObserved(u, h), c, h);
  }

  /** The end of a turn that is not the interrupted one is noted with its time. */
  lemma EndIsNoted(s: State, now: int, h: Host)
    requires s.active.Some? && (s.turnStarted || !s.interruptSent || s.interruptedTurnEnded)
    ensures var t := TurnEnd(s, now, h);
            t.active.Some? ==> t.active == s.active && t.turnStarted && t.turnEnded && t.turnEndedAt == Some(now)
  {
    var u := MarkEnded(s, now);
    assert TurnEnd(s, now, h) == SettleObserved(u, h);
  }

  // ---------------------------------------------------------------- waiting to claim again

  /** Five seconds after the first failed claim, twice as long after each further one, up to a minute. */
  function Wait(failures: nat): int
    requires failures > 0
  {
    if failures == 1 then 5_000
    else if 2 * Wait(failures - 1) < 60_000 then 2 * Wait(failures - 1) else 60_000
  }

  lemma {:induction false} WaitIsBackoff(failures: nat)
    requires failures > 0
    ensures Backoff(failures) == Wait(failures)
    ensures failures >= 5 ==> Wait(failures) == 60_000
  {
    if failures <= 6 {
      assert Pow2(0) == 1 && Pow2(1) == 2 && Pow2(2) == 4 && Pow2(3) == 8 && Pow2(4) == 16 && Pow2(5) == 32;
      assert Wait(1) == 5_000 && Wait(2) == 10_000 && Wait(3) == 20_000 && Wait(4) == 40_000;
      assert Wait(5) == 60_000 && Wait(6) == 60_000;
    } else {
      WaitIsBackoff(failures - 1);
      assert Pow2(6) == 64 && Pow2(5) == 32 && Pow2(4) == 16;
    }
  }

  /** With no knock open: a poll before its time, or one that can neither deliver nor interrupt, does
      nothing; a failed claim counts, and the next poll that may claim comes after the wait; any answer of the
      Host ends the count. */
  lemma ClaimsWait(s: State, now: int, c: Session, h: Host)
    requires s.active.None?
    ensures var t := Tick(s, now, c, h);
            if now < s.nextClaimAt || (!c.idle && !c.canAbort) then t == s
            else if h.claim.ClaimFails? then
              && t.claimFailures == s.claimFailures + 1 && t.nextClaimAt == now + Wait(t.claimFailures)
              && t.active.None? && t.trace == s.trace
            else t.claimFailures == 0 && t.nextClaimAt == 0
  {
    if now >= s.nextClaimAt && (c.idle || c.canAbort) { ClaimWaits(s, now, c, h); }
  }

  lemma ClaimWaits(s: State, now: int, c: Session, h: Host)
    requires now >= s.nextClaimAt && (c.idle || c.canAbort)
    ensures var t := ClaimNext(s, now, c, h);
            if h.claim.ClaimFails? then
              && t.claimFailures == s.claimFailures + 1 && t.nextClaimAt == now + Wait(t.claimFailures)
              && t.active == s.active && t.trace == s.trace
            else t.claimFailures == 0 && t.nextClaimAt == 0
  {
    if h.claim.ClaimFails? {
      WaitIsBackoff(s.claimFailures + 1);
    } else if h.claim.Granted? {
      GrantWaitsNot(s, now, c, h);
    }
  }

  lemma GrantWaitsNot(s: State, now: int, c: Session, h: Host)
    requires now >= s.nextClaimAt && (c.idle || c.canAbort) && h.claim.Granted?
    ensures ClaimNext(s, now, c, h).claimFailures == 0 && ClaimNext(s, now, c, h).nextClaimAt == 0
  {
    var k := h.claim.knock;
    DeliverWaitsNot(Note(Clear(s.(claimFailures := 0, nextClaimAt := 0)).(active := Some(k)), Claimed(k)), now,
                    c.idleLater, c, h);
  }

  lemma DeliverWaitsNot(s: State, now: int, idle: bool, c: Session, h: Host)
    ensures var t := DeliverActive(s, now, idle, c, h);
            t.claimFailures == s.claimFailures && t.nextClaimAt == s.nextClaimAt
  {
  }

  // ---------------------------------------------------------------- a knock nobody was told about

  /** A claim leaves the knock undelivered exactly when the session got busy meanwhile and its adapter
      cannot interrupt a turn. */
  lemma UndeliveredAfterClaim(s: State, now: int, c: Session, h: Host)
    requires s.active.None? && h.claim.Granted? && now >= s.nextClaimAt && (c.idle || c.canAbort)
    ensures var t := Tick(s, now, c, h);
            (t.active.Some? && !t.delivered) <==> (!c.idleLater && !c.canAbort)
  {
  }

  predicate CanInterrupt(e: Event) {
    e.EvTick? ==> e.session.canAbort
  }

  ghost predicate Told(s: State) {
    s.active.Some? ==> s.delivered
  }

  lemma SettleTells(s: State, c: Session, h: Host)
    requires Told(s)
    ensures Told(SettleObserved(s, h)) && Told(InterruptActive(s, c, h))
  {
  }

  lemma DeliverTells(s: State, now: int, idle: bool, c: Session, h: Host)
    requires c.canAbort
    ensures Told(DeliverActive(s, now, idle, c, h))
  {
    if s.active.Some? && !s.delivered {
      SettleTells(HandOver(s, now, idle), c, h);
      SettleTells(SettleObserved(HandOver(s, now, idle), h), c, h);
    }
  }

  lemma TickTells(s: State, now: int, c: Session, h: Host)
    requires Told(s) && c.canAbort
    ensures Told(Tick(s, now, c, h))
  {
    if s.active.None? {
      if h.claim.Granted? {
        var t := Clear(s.(claimFailures := 0, nextClaimAt := 0)).(active := Some(h.claim.knock));
        DeliverTells(Note(t, Claimed(h.claim.knock)), now, c.idleLater, c, h);
      }
    } else {
      SettleTells(s, c, h);
      SettleTells(SettleObserved(s, h), c, h);
    }
  }

  /** Between events, an adapter that can interrupt never holds an undelivered knock. */
  lemma {:induction false} InterruptersDeliver(events: seq<Event>)
    requires forall k :: 0 <= k < |events| ==> CanInterrupt(events[k])
    ensures Told(Run(events))
  {
    if events != [] {
      var s := Run(Front(events));
      InterruptersDeliver(Front(events));
      assert Last(events) == events[|events| - 1];
      StepTells(s, Last(events));
    }
  }

  lemma StepTells(s: State, e: Event)
    requires Told(s) && CanInterrupt(e)
    ensures Told(Step(s, e))
  {
    match e
    case EvTick(now, c, h) => TickTells(s, now, c, h);
    case _ =>
  }

  // ---------------------------------------------------------------- completed, but delivered?

  /** The turn of a knock not delivered is taken to end, and the Host acknowledges both settlements. */
  predicate Bypasses(s: State, e: Event) {
    e.EvTurnEnd? && s.active.Some? && !s.delivered && StartKnown(s, e.host) && e.host.completed
  }

  predicate Completes(e: Entry) {
    e.Settling? && e.outcome.Completed? && e.acked
  }

  /** Every acknowledged completion is that of a knock delivered since its claim. */
  predicate AllDelivered(t: seq<Entry>) {
    t == [] || (AllDelivered(Front(t)) && (Completes(Last(t)) ==> Reached(Front(t)).delivered))
  }

  /** Nothing is interrupted for a knock not delivered. */
  predicate Untouched(s: State) {
    s.active.Some? && !s.delivered ==> !s.interruptRequested && !s.interruptSent
  }

  lemma NoteDelivered(s: State, e: Entry)
    ensures AllDelivered(Note(s, e).trace) <==> AllDelivered(s.trace) && (Completes(e) ==> Reached(s.trace).delivered)
  {
    Snoc(s.trace, e);
  }

  lemma FailDelivered(s: State, h: Host)
    requires Inv(s)
    ensures AllDelivered(FailActive(s, h).trace) <==> AllDelivered(s.trace)
    ensures Untouched(FailActive(s, h))
  {
    if s.active.Some? { NoteDelivered(s, Settling(s.active.value, Failed, h.failed)); }
  }

  lemma InterruptDelivered(s: State, c: Session, h: Host)
    requires Inv(s) && Untouched(s)
    ensures AllDelivered(InterruptActive(s, c, h).trace) <==> AllDelivered(s.trace)
    ensures Untouched(InterruptActive(s, c, h))
  {
    FailDelivered(s, h);
    if s.active.Some? { NoteDelivered(s.(interruptSent := true), Interrupted(s.active.value)); }
  }

  lemma SettleDelivered(s: State, h: Host)
    requires Inv(s) && Untouched(s)
    ensures AllDelivered(SettleObserved(s, h).trace)
            <==> AllDelivered(s.trace) && (s.active.Some? && CompletesNow(s, h) ==> s.delivered)
    ensures Untouched(SettleObserved(s, h))
  {
    if s.active.Some? {
      var t := SettleStart(s, h);
      SettleStartKeeps(s, h);
      if !s.startSettled { NoteDelivered(s.(startSettled := h.started), Settling(s.active.value, Started, h.started)); }
      NoteDelivered(t, Settling(s.active.value, Completed, h.completed));
    }
  }

  lemma DeliverDelivered(s: State, now: int, idle: bool, c: Session, h: Host)
    requires Inv(s) && Untouched(s)
    ensures AllDelivered(DeliverActive(s, now, idle, c, h).trace) <==> AllDelivered(s.trace)
    ensures Untouched(DeliverActive(s, now, idle, c, h))
  {
    if s.active.None? || s.delivered || (!idle && !c.canAbort) {
    } else if c.sendThrows {
      FailDelivered(s, h);
    } else {
      var t := HandOver(s, now, idle);
      HandOverKeeps(s, now, idle);
      NoteDelivered(s, Delivered(s.active.value));
      SettleDelivered(t, h);
      SettleKeeps(t, h);
      InterruptDelivered(SettleObserved(t, h), c, h);
    }
  }

  lemma ClaimDelivered(s: State, now: int, c: Session, h: Host)
    requires Inv(s) && s.active.None?
    ensures AllDelivered(ClaimNext(s, now, c, h).trace) <==> AllDelivered(s.trace)
    ensures Untouched(ClaimNext(s, now, c, h))
  {
    if h.claim.Granted? {
      var k := h.claim.knock;
      var t := Clear(s.(claimFailures := 0, nextClaimAt := 0)).(active := Some(k));
      NoteLaw(t, Claimed(k));
      NoteDelivered(t, Claimed(k));
      DeliverDelivered(Note(t, Claimed(k)), now, c.idleLater, c, h);
    }
  }

  lemma TickDelivered(s: State, now: int, c: Session, h: Host)
    requires Inv(s) && Untouched(s)
    ensures AllDelivered(Tick(s, now, c, h).trace) <==> AllDelivered(s.trace)
    ensures Untouched(Tick(s, now, c, h))
  {
    if s.active.None? {
      ClaimDelivered(s, now, c, h);
    } else if !s.delivered {
      DeliverDelivered(s, now, c.idle, c, h);
    } else if Overdue(s, now) {
      FailDelivered(s, h);
    } else {
      SettleDelivered(s, h);
      SettleKeeps(s, h);
      InterruptDelivered(SettleObserved(s, h), c, h);
    }
  }

  lemma TurnStartDelivered(s: State, knock: Knock, h: Host)
    requires Inv(s) && Untouched(s)
    ensures AllDelivered(TurnStart(s, knock, h).trace) <==> AllDelivered(s.trace)
    ensures Untouched(TurnStart(s, knock, h))
  {
    if s.active == Some(knock) && s.delivered && !s.turnStarted {
      var t := s.(turnStarted := true);
      NoteLaw(t, Began(knock, true));
      NoteDelivered(t, Began(knock, true));
      SettleDelivered(Note(t, Began(knock, true)), h);
    }
  }

  lemma MarkEndedDelivered(s: State, now: int)
    requires s.active.Some?
    ensures AllDelivered(MarkEnded(s, now).trace) <==> AllDelivered(s.trace)
  {
    if !s.turnStarted { NoteDelivered(s.(turnStarted := true), Began(s.active.value, false)); }
    var began := if s.turnStarted then s else Note(s.(turnStarted := true), Began(s.active.value, false));
    NoteDelivered(began, Ended(s.active.value));
  }

  lemma TurnEndDelivered(s: State, now: int, h: Host)
    requires Inv(s) && Untouched(s)
    ensures AllDelivered(TurnEnd(s, now, h).trace) <==> AllDelivered(s.trace) && !Bypasses(s, EvTurnEnd(now, h))
    ensures Untouched(TurnEnd(s, now, h))
  {
    if s.active.Some? {
      if !s.turnStarted && s.interruptSent && !s.interruptedTurnEnded {
        NoteDelivered(s.(interruptedTurnEnded := true), Consumed(s.active.value));
      } else {
        MarkEndedKeeps(s, now);
        MarkEndedDelivered(s, now);
        SettleDelivered(MarkEnded(s, now), h);
      }
    }
  }

  lemma StepDelivered(s: State, e: Event)
    requires Inv(s) && Untouched(s)
    ensures AllDelivered(Step(s, e).trace) <==> AllDelivered(s.trace) && !Bypasses(s, e)
    ensures Untouched(Step(s, e))
  {
    match e
    case EvTick(now, c, h) => TickDelivered(s, now, c, h);
    case EvTurnStart(knock, h) => TurnStartDelivered(s, knock, h);
    case EvTurnEnd(now, h) => TurnEndDelivered(s, now, h);
    case EvRetired(h) => FailDelivered(s, h);
  }

  predicate BypassAt(events: seq<Event>, j: nat)
    requires j < |events|
  {
    Bypasses(Run(events[..j]), events[j])
  }

  ghost predicate BypassesSome(events: seq<Event>) {
    exists j :: 0 <= j < |events| && BypassAt(events, j)
  }

  lemma BypassAtFront(events: seq<Event>, j: nat)
    requires j < |events| - 1
    ensures BypassAt(Front(events), j) <==> BypassAt(events, j)
  {
    assert Front(events)[..j] == events[..j];
  }

  lemma BypassesStep(events: seq<Event>)
    requires events != []
    ensures BypassesSome(events) <==> BypassesSome(Front(events)) || Bypasses(Run(Front(events)), Last(events))
  {
    var n := |events| - 1;
    assert events[..n] == Front(events);
    assert BypassAt(events, n) <==> Bypasses(Run(Front(events)), Last(events));
    forall j | 0 <= j < n { BypassAtFront(events, j); }
  }

  lemma {:induction false} RunDelivered(events: seq<Event>)
    ensures Untouched(Run(events)) && (AllDelivered(Run(events).trace) <==> !BypassesSome(events))
  {
    if events != [] {
      RunDelivered(Front(events));
      RunKeeps(Front(events));
      StepDelivered(Run(Front(events)), Last(events));
      BypassesStep(events);
    }
  }

  ghost predicate DeliveredBefore(t: seq<Entry>, m: nat)
    requires m < |t|
  {
    Stands(t[..m], Delivered(t[m].knock))
  }

  lemma {:induction false} DeliveredIsKnown(t: seq<Entry>, d: int, knock: Knock)
    requires AllLawful(t) && Reached(t).open == Some(knock) && StandsAt(t, d, Delivered(knock))
    ensures Reached(t).delivered
  {
    if d < |t| - 1 {
      assert forall k :: 0 <= k < |t| - 1 ==> Front(t)[k] == t[k];
      assert StandsAt(Front(t), d, Delivered(knock));
      DeliveredIsKnown(Front(t), d, knock);
    }
  }

  lemma {:induction false} AllDeliveredAt(t: seq<Entry>, m: nat)
    requires AllDelivered(t) && m < |t| && Completes(t[m])
    ensures Reached(t[..m]).delivered
  {
    if m == |t| - 1 {
      assert t[..m] == Front(t);
    } else {
      AllDeliveredAt(Front(t), m);
      assert Front(t)[..m] == t[..m];
    }
  }

  lemma {:induction false} AllDeliveredFrom(t: seq<Entry>)
    requires AllLawful(t) && forall m: nat :: m < |t| && Completes(t[m]) ==> DeliveredBefore(t, m)
    ensures AllDelivered(t)
  {
    if t != [] {
      var f, n := Front(t), |t| - 1;
      assert t[..n] == f;
      forall m: nat | m < |f| && Completes(f[m]) ensures DeliveredBefore(f, m) {
        assert f[..m] == t[..m] && f[m] == t[m] && DeliveredBefore(t, m);
      }
      AllDeliveredFrom(f);
      if Completes(Last(t)) {
        assert DeliveredBefore(t, n);
        var d: int :| StandsAt(t[..n], d, Delivered(t[n].knock));
        DeliveredIsKnown(f, d, t[n].knock);
      }
    }
  }

  lemma CompletedIsDelivered(t: seq<Entry>, m: nat)
    requires AllLawful(t) && AllDelivered(t) && m < |t| && Completes(t[m])
    ensures DeliveredBefore(t, m)
  {
    AllDeliveredAt(t, m);
    LawfulPrefix(t, m);
    ProgressIsReal(t[..m]);
  }

  /** Over every run: each knock completed with acknowledgement was delivered since its claim, if and only
      if no turn end found the open knock undelivered with both settlements acknowledged. */
  lemma CompletedMeansDeliveredIff(events: seq<Event>)
    ensures var t := Run(events).trace;
            (forall m: nat :: m < |t| && Completes(t[m]) ==> DeliveredBefore(t, m)) <==> !BypassesSome(events)
  {
    var t := Run(events).trace;
    RunKeeps(events);
    RunDelivered(events);
    if AllDelivered(t) {
      forall m: nat | m < |t| && Completes(t[m]) ensures DeliveredBefore(t, m) { CompletedIsDelivered(t, m); }
    } else if forall m: nat :: m < |t| && Completes(t[m]) ==> DeliveredBefore(t, m) {
      AllDeliveredFrom(t);
    }
  }

  /** With an adapter that can interrupt, whatever is completed was delivered since its claim. */
  lemma InterruptersCompleteTruly(events: seq<Event>, m: nat)
    requires forall k :: 0 <= k < |events| ==> CanInterrupt(events[k])
    requires m < |Run(events).trace| && Completes(Run(events).trace[m])
    ensures DeliveredBefore(Run(events).trace, m)
  {
    forall j | 0 <= j < |events| ensures !BypassAt(events, j) {
      InterruptersDeliver(events[..j]);
    }
    CompletedMeansDeliveredIff(events);
  }

  /** The end of a turn the knock was never seen to start completes it, delivered or not, exactly when it
      is not the turn interrupted for the knock and the Host acknowledges start and completion. */
  lemma OtherTurnCompletesIff(s: State, now: int, h: Host)
    requires Inv(s) && s.active.Some? && !s.turnStarted
    ensures var t := TurnEnd(s, now, h);
            && (t.active.None? <==> (!s.interruptSent || s.interruptedTurnEnded) && StartKnown(s, h) && h.completed)
            && (t.active.None? ==> Completes(Last(t.trace)) && Last(t.trace).knock == s.active.value)
  {
    if !s.interruptSent || s.interruptedTurnEnded {
      var u := MarkEnded(s, now);
      assert u.active == s.active && u.startSettled == s.startSettled && u.turnStarted && u.turnEnded;
      var v := SettleStart(u, h);
      assert v.startSettled == StartKnown(s, h);
      assert TurnEnd(s, now, h) == SettleObserved(u, h);
    }
  }

  const ANSWERS := Host(Granted("k"), true, true, true)

  /** A session that turns busy while the claim is under way, with an adapter that cannot interrupt:
      the end of the unrelated turn completes the knock although its message was never sent. */
  lemma CompletedUndelivered()
    ensures Run([EvTick(0, Session(true, false, false, false, false), ANSWERS), EvTurnEnd(1, ANSWERS)]).trace
         == [Claimed("k"), Began("k", false), Ended("k"), Settling("k", Started, true), Settling("k", Completed, true)]
  {
    var tick, end := EvTick(0, Session(true, false, false, false, false), ANSWERS), EvTurnEnd(1, ANSWERS);
    RunAppend([], tick);
    RunAppend([tick], end);
    assert [] + [tick] == [tick] && [tick] + [end] == [tick, end];
    var s1 := Run([tick]);
    assert s1.trace == [Claimed("k")] && s1.active == Some("k") && !s1.interruptSent && !s1.turnStarted;
    var s2 := MarkEnded(s1, 1);
    assert s2.trace == [Claimed("k"), Began("k", false), Ended("k")];
  }

  /** An idle session and a knock delivered to it: the end of a turn that is not the knock's, before the
      knock's own is seen to start, completes it. */
  lemma CompletedByAnotherTurn()
    ensures Run([EvTick(0, Session(true, true, true, false, false), ANSWERS), EvTurnEnd(1, ANSWERS)]).trace
         == [Claimed("k"), Delivered("k"), Settling("k", Started, true), Began("k", false), Ended("k"),
             Settling("k", Completed, true)]
  {
    var tick, end := EvTick(0, Session(true, true, true, false, false), ANSWERS), EvTurnEnd(1, ANSWERS);
    RunAppend([], tick);
    RunAppend([tick], end);
    assert [] + [tick] == [tick] && [tick] + [end] == [tick, end];
    var s1 := Run([tick]);
    assert s1.trace == [Claimed("k"), Delivered("k"), Settling("k", Started, true)];
    var s2 := MarkEnded(s1, 1);
    assert s2.trace == s1.trace + [Began("k", false), Ended("k")];
  }

  lemma RunAppend(events: seq<Event>, e: Event)
    ensures Run(events + [e]) == Step(Run(events), e)
  {
    Snoc(events, e);
  }

  /** A knock open when its recipient retires is failed once and let go. */
  lemma RetiredIsFailed(s: State, h: Host)
    ensures var t := Step(s, EvRetired(h));
            if s.active.None? then t == s
            else t.active.None? && t.trace == s.trace + [Settling(s.active.value, Failed, h.failed)]
  {
  }
}
