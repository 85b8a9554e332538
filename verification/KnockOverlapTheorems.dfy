/** Exactly when overlapping Host calls lose a knock or borrow a start, over every course of events. */
module KnockOverlapTheorems {
  import opened Basics
  import opened KnockModel
  import opened KnockTheorems
  import opened KnockOverlap

  // ---------------------------------------------------------------- steps that settle nothing

  ghost predicate SameKnocks(o: Overlap, t: Overlap) {
    && t.core.active == o.core.active
    && Unsettled(t.core.trace) == Unsettled(o.core.trace)
    && Acknowledged(t.core.trace) == Acknowledged(o.core.trace)
  }

  /** No knock is claimed, settled or let go, no start learnt; failures go out for the open knock alone. */
  ghost predicate Calm(o: Overlap, t: Overlap) {
    && SameKnocks(o, t)
    && t.core.startSettled == o.core.startSettled
    && (t.claiming.Asking? ==> o.claiming.Asking?)
    && (t.settling.Some? ==> o.core.active == Some(t.settling.value.knock)
                             || (o.settling.Some? && t.settling.value.knock == o.settling.value.knock))
    && o.failing <= t.failing
    && forall j :: |o.failing| <= j < |t.failing| ==> o.core.active == Some(t.failing[j].knock)
  }

  lemma CalmNote(o: Overlap, t: Overlap, e: Entry)
    requires t.core.trace == o.core.trace + [e] && !e.Claimed? && !e.Settling?
    requires t.core.active == o.core.active && t.core.startSettled == o.core.startSettled
    requires t.settling == o.settling && t.failing == o.failing && t.claiming == o.claiming
    ensures Calm(o, t)
  {
    Grows(o.core.trace, e);
  }

  lemma CalmFail(o: Overlap, frees: bool)
    ensures Calm(o, FailCall(o, frees)) && Calm(o, Done(o, frees))
  {
  }

  lemma CalmInterrupt(o: Overlap, c: Session, frees: bool)
    ensures Calm(o, InterruptCall(o, c, frees))
  {
    CalmFail(o, frees);
    var s := o.core;
    if s.active.Some? && s.interruptRequested && !s.interruptSent && s.startSettled && c.canAbort && !c.abortThrows {
      Grows(s.trace, Interrupted(s.active.value));
    }
  }

  lemma CalmGoOn(o: Overlap, c: Session, interrupts: bool, frees: bool)
    ensures Calm(o, GoOn(o, c, interrupts, frees))
  {
    CalmInterrupt(o, c, frees);
    CalmFail(o, frees);
  }

  lemma CalmComplete(o: Overlap, c: Session, q: Settlement)
    requires o.core.active == Some(q.knock) || (o.settling.Some? && o.settling.value.knock == q.knock)
    ensures Calm(o, CompleteCall(o, c, q))
  {
    CalmGoOn(o.(settling := None), c, q.interrupts, q.frees);
  }

  lemma CalmSettle(o: Overlap, c: Session, interrupts: bool, frees: bool)
    ensures Calm(o, SettleCall(o, c, interrupts, frees))
  {
    CalmGoOn(o, c, interrupts, frees);
    if o.core.active.Some? { CalmComplete(o, c, Settlement(o.core.active.value, AwaitStart, interrupts, frees)); }
  }

  lemma CalmThen(o: Overlap, t: Overlap, u: Overlap)
    requires Calm(o, t) && Calm(t, u)
    ensures Calm(o, u)
  {
  }

  lemma CalmHolds(o: Overlap, t: Overlap)
    requires Calm(o, t) && Holds(o)
    ensures Holds(t)
  {
  }

  lemma CalmLoses(o: Overlap, t: Overlap, knock: Knock)
    requires Calm(o, t)
    ensures Lost(t, knock) <==> Lost(o, knock)
  {
    if Failing(o, knock) {
      var j :| 0 <= j < |o.failing| && o.failing[j].knock == knock;
      assert t.failing[j].knock == knock;
    }
  }

  ghost predicate Keeps(o: Overlap, t: Overlap) {
    Holds(t) && (StartTrue(o) ==> StartTrue(t)) && forall k :: Lost(t, k) ==> Lost(o, k)
  }

  lemma CalmKeeps(o: Overlap, t: Overlap)
    requires Calm(o, t) && Holds(o)
    ensures Keeps(o, t)
  {
    CalmHolds(o, t);
    forall k ensures Lost(t, k) ==> Lost(o, k) { CalmLoses(o, t, k); }
  }

  lemma KeepsThen(o: Overlap, t: Overlap, u: Overlap)
    requires Keeps(o, t) && Calm(t, u)
    ensures Keeps(o, u)
  {
    CalmKeeps(t, u);
  }

  // ---------------------------------------------------------------- calls lose nothing

  lemma HandOverKeepsKnock(o: Overlap, now: int, idle: bool)
    requires Holds(o) && o.core.active.Some?
    ensures Keeps(o, o.(core := HandOver(o.core, now, idle)))
  {
    var t := o.(core := HandOver(o.core, now, idle));
    Grows(o.core.trace, Delivered(o.core.active.value));
    assert forall k :: Failing(t, k) ==> Failing(o, k);
    assert forall k :: Failing(o, k) ==> Failing(t, k);
  }

  lemma DeliverCallKeeps(o: Overlap, now: int, c: Session, frees: bool)
    requires Holds(o)
    ensures Keeps(o, DeliverCall(o, now, c, frees))
  {
    CalmFail(o, frees);
    CalmKeeps(o, Done(o, frees));
    CalmKeeps(o, FailCall(o, frees));
    if o.core.active.Some? {
      var t := o.(core := HandOver(o.core, now, c.idle));
      HandOverKeepsKnock(o, now, c.idle);
      CalmSettle(t, c, true, frees);
      KeepsThen(o, t, SettleCall(t, c, true, frees));
    }
  }

  lemma SettleCallKeeps(o: Overlap, c: Session, interrupts: bool, frees: bool)
    requires Holds(o)
    ensures Keeps(o, SettleCall(o, c, interrupts, frees))
  {
    CalmSettle(o, c, interrupts, frees);
    CalmKeeps(o, SettleCall(o, c, interrupts, frees));
  }

  lemma AskKeeps(o: Overlap)
    requires Holds(o) && o.core.active.None?
    ensures Keeps(o, o) && Keeps(o, o.(claiming := Asking))
  {
    var t := o.(claiming := Asking);
    assert forall k :: Failing(o, k) ==> Failing(t, k);
  }

  lemma TickCallKeeps(o: Overlap, now: int, c: Session)
    requires Holds(o)
    ensures Keeps(o, TickCall(o, now, c))
  {
    if o.core.active.None? {
      AskKeeps(o);
    } else if !o.core.delivered {
      DeliverCallKeeps(o, now, c, false);
    } else if Overdue(o.core, now) {
      CalmFail(o, false);
      CalmKeeps(o, FailCall(o, false));
    } else {
      SettleCallKeeps(o, c, true, false);
    }
  }

  lemma NoteKeeps(o: Overlap, t: Overlap, e: Entry, c: Session)
    requires Holds(o)
    requires t.core.trace == o.core.trace + [e] && !e.Claimed? && !e.Settling?
    requires t.core.active == o.core.active && t.core.startSettled == o.core.startSettled
    requires t.settling == o.settling && t.failing == o.failing && t.claiming == o.claiming
    ensures Keeps(o, t) && Keeps(o, SettleCall(t, c, false, false))
  {
    CalmNote(o, t, e);
    CalmKeeps(o, t);
    CalmSettle(t, c, false, false);
    KeepsThen(o, t, SettleCall(t, c, false, false));
  }

  lemma TurnStartCallKeeps(o: Overlap, knock: Knock, c: Session)
    requires Holds(o)
    ensures Keeps(o, TurnStartCall(o, knock, c))
  {
    NoteKeeps(o, o.(core := Note(o.core.(turnStarted := true), Began(knock, true))), Began(knock, true), c);
    CalmKeeps(o, o);
  }

  lemma MarkEndedKeepsKnock(o: Overlap, now: int)
    requires Holds(o) && o.core.active.Some?
    ensures Keeps(o, o.(core := MarkEnded(o.core, now)))
  {
    var s, k := o.core, o.core.active.value;
    var began := if s.turnStarted then o else o.(core := Note(s.(turnStarted := true), Began(k, false)));
    if !s.turnStarted { CalmNote(o, began, Began(k, false)); }
    CalmKeeps(o, began);
    CalmNote(began, o.(core := MarkEnded(s, now)), Ended(k));
    KeepsThen(o, began, o.(core := MarkEnded(s, now)));
  }

  lemma TurnEndCallKeeps(o: Overlap, now: int, c: Session)
    requires Holds(o)
    ensures Keeps(o, TurnEndCall(o, now, c))
  {
    var s := o.core;
    if s.active.None? {
      CalmKeeps(o, o);
    } else if !s.turnStarted && s.interruptSent && !s.interruptedTurnEnded {
      NoteKeeps(o, TurnEndCall(o, now, c), Consumed(s.active.value), c);
    } else {
      var t := o.(core := MarkEnded(s, now));
      MarkEndedKeepsKnock(o, now);
      CalmSettle(t, c, false, false);
      KeepsThen(o, t, SettleCall(t, c, false, false));
    }
  }

  // ---------------------------------------------------------------- answers

  lemma ClaimReturnKeeps(o: Overlap, now: int, c: Session, claim: Claim)
    requires Holds(o)
    ensures Keeps(o, ClaimReturn(o, now, c, claim))
  {
    CalmKeeps(o, o);
    if o.claiming.Asking? {
      match claim
      case ClaimFails => CalmKeeps(o, ClaimReturn(o, now, c, claim));
      case NoKnock => CalmKeeps(o, ClaimReturn(o, now, c, claim));
      case Granted(k) =>
        var s := Note(Clear(o.core.(claimFailures := 0, nextClaimAt := 0)).(active := Some(k)), Claimed(k));
        var t := o.(core := s, claiming := Handing);
        GrantKeeps(o, t, k);
        DeliverCallKeeps(t, now, c, true);
    }
  }

  lemma GrantKeeps(o: Overlap, t: Overlap, k: Knock)
    requires Holds(o) && o.claiming.Asking?
    requires t.core.trace == o.core.trace + [Claimed(k)] && t.core.active == Some(k) && !t.core.startSettled
    requires t.settling == o.settling && t.failing == o.failing && t.claiming.Handing?
    ensures Keeps(o, t)
  {
    Grows(o.core.trace, Claimed(k));
    assert forall j :: Failing(o, j) ==> Failing(t, j);
  }

  /** A settlement's answer comes back to a doorman that by now holds another knock, with no failure of
      that knock on its way. */
  ghost predicate Wipes(guarded: bool, o: Overlap, e: Call) {
    && !guarded && o.core.active.Some? && !Failing(o, o.core.active.value)
    && match e
       case OnFailure(i, _) => i < |o.failing|
       case OnCompletion(acked, _) =>
         acked && o.settling.Some? && o.settling.value.stage.AwaitCompletion?
         && o.settling.value.knock != o.core.active.value
       case _ => false
  }

  /** The answer to another knock's start comes back. */
  predicate Borrows(guarded: bool, o: Overlap, e: Call) {
    && !guarded && e.OnStart? && e.acked && o.settling.Some? && o.settling.value.stage.AwaitStart?
    && o.core.active.Some? && o.settling.value.knock != o.core.active.value
  }

  ghost predicate Exactly(guarded: bool, o: Overlap, e: Call, t: Overlap) {
    && Holds(t)
    && (forall k :: Lost(t, k) && !Lost(o, k) ==> Wipes(guarded, o, e) && o.core.active == Some(k))
    && (Wipes(guarded, o, e) ==> Lost(t, o.core.active.value) && !Lost(o, o.core.active.value))
    && (StartTrue(o) ==> (StartTrue(t) <==> !Borrows(guarded, o, e)))
  }

  lemma ExactlyThen(guarded: bool, o: Overlap, e: Call, t: Overlap, u: Overlap)
    requires Exactly(guarded, o, e, t) && Calm(t, u)
    ensures Exactly(guarded, o, e, u)
  {
    CalmHolds(t, u);
    forall k ensures Lost(u, k) <==> Lost(t, k) { CalmLoses(t, u, k); }
  }

  lemma FailReturnExact(guarded: bool, o: Overlap, i: nat, acked: bool)
    requires Holds(o)
    ensures Exactly(guarded, o, OnFailure(i, acked), FailReturn(guarded, o, i, acked))
  {
    if i < |o.failing| {
      var q := o.failing[i];
      var noted := Note(o.core, Settling(q.knock, Failed, acked));
      var s := if Writes(guarded, o.core, q.knock) then Clear(noted) else noted;
      var t := o.(core := s, failing := o.failing[..i] + o.failing[i + 1..]);
      FailureGone(guarded, o, i, acked, t);
      CalmFail(t, q.frees);
      ExactlyThen(guarded, o, OnFailure(i, acked), t, Done(t, q.frees));
    }
  }

  lemma FailingWithout(o: Overlap, t: Overlap, i: nat, knock: Knock)
    requires i < |o.failing| && t.failing == o.failing[..i] + o.failing[i + 1..] && knock != o.failing[i].knock
    ensures Failing(t, knock) <==> Failing(o, knock)
  {
    if Failing(o, knock) {
      var j :| 0 <= j < |o.failing| && o.failing[j].knock == knock;
      assert t.failing[if j < i then j else j - 1].knock == knock;
    }
    if Failing(t, knock) {
      var j :| 0 <= j < |t.failing| && t.failing[j].knock == knock;
      assert o.failing[if j < i then j else j + 1].knock == knock;
    }
  }

  lemma FailureGone(guarded: bool, o: Overlap, i: nat, acked: bool, t: Overlap)
    requires Holds(o) && i < |o.failing| && t.failing == o.failing[..i] + o.failing[i + 1..]
    requires t.settling == o.settling && t.claiming == o.claiming
    requires var noted := Note(o.core, Settling(o.failing[i].knock, Failed, acked));
             t.core == if Writes(guarded, o.core, o.failing[i].knock) then Clear(noted) else noted
    ensures Exactly(guarded, o, OnFailure(i, acked), t)
  {
    var c := o.failing[i].knock;
    Grows(o.core.trace, Settling(c, Failed, acked));
    assert Failing(o, c);
    forall k | k != c ensures Failing(t, k) <==> Failing(o, k) { FailingWithout(o, t, i, k); }
  }

  lemma CompletionReturnExact(guarded: bool, o: Overlap, acked: bool, c: Session)
    requires Holds(o)
    ensures Exactly(guarded, o, OnCompletion(acked, c), CompletionReturn(guarded, o, acked, c))
  {
    if o.settling.Some? && o.settling.value.stage.AwaitCompletion? {
      var q := o.settling.value;
      var noted := Note(o.core, Settling(q.knock, Completed, acked));
      var s := if acked && Writes(guarded, o.core, q.knock) then Clear(noted) else noted;
      var t := o.(core := s, settling := None);
      CompletionGone(guarded, o, acked, c, t);
      CalmGoOn(t, c, q.interrupts, q.frees);
      ExactlyThen(guarded, o, OnCompletion(acked, c), t, GoOn(t, c, q.interrupts, q.frees));
    }
  }

  lemma CompletionGone(guarded: bool, o: Overlap, acked: bool, c: Session, t: Overlap)
    requires Holds(o) && o.settling.Some? && o.settling.value.stage.AwaitCompletion?
    requires t.settling.None? && t.claiming == o.claiming && t.failing == o.failing
    requires var noted := Note(o.core, Settling(o.settling.value.knock, Completed, acked));
             t.core == if acked && Writes(guarded, o.core, o.settling.value.knock) then Clear(noted) else noted
    ensures Exactly(guarded, o, OnCompletion(acked, c), t)
  {
    Grows(o.core.trace, Settling(o.settling.value.knock, Completed, acked));
    assert forall k :: Failing(o, k) ==> Failing(t, k);
    assert forall k :: Failing(t, k) ==> Failing(o, k);
  }

  lemma StartReturnExact(guarded: bool, o: Overlap, acked: bool, c: Session)
    requires Holds(o)
    ensures Exactly(guarded, o, OnStart(acked, c), StartReturn(guarded, o, acked, c))
  {
    if o.settling.Some? && o.settling.value.stage.AwaitStart? {
      var q := o.settling.value;
      var writes := acked && Writes(guarded, o.core, q.knock);
      var noted := Note(o.core, Settling(q.knock, KnockModel.Started, acked));
      var t := o.(core := if writes then noted.(startSettled := true) else noted);
      StartKnown(guarded, o, acked, c, t);
      if writes {
        CalmComplete(t, c, q);
        ExactlyThen(guarded, o, OnStart(acked, c), t, CompleteCall(t, c, q));
      } else {
        var u := t.(settling := None);
        CalmGoOn(u, c, q.interrupts, q.frees);
        CalmThen(t, u, GoOn(u, c, q.interrupts, q.frees));
        ExactlyThen(guarded, o, OnStart(acked, c), t, GoOn(u, c, q.interrupts, q.frees));
      }
    }
  }

  lemma StartKnown(guarded: bool, o: Overlap, acked: bool, c: Session, t: Overlap)
    requires Holds(o) && o.settling.Some? && o.settling.value.stage.AwaitStart?
    requires t.settling == o.settling && t.claiming == o.claiming && t.failing == o.failing
    requires var q := o.settling.value;
             var noted := Note(o.core, Settling(q.knock, KnockModel.Started, acked));
             t.core == if acked && Writes(guarded, o.core, q.knock) then noted.(startSettled := true) else noted
    ensures Exactly(guarded, o, OnStart(acked, c), t)
  {
    Grows(o.core.trace, Settling(o.settling.value.knock, KnockModel.Started, acked));
    assert forall k :: Failing(o, k) ==> Failing(t, k);
    assert forall k :: Failing(t, k) ==> Failing(o, k);
  }

  // ---------------------------------------------------------------- every event, every course

  /** Exactly which events lose a knock, and which take a start for acknowledged that was not. */
  lemma NextExact(guarded: bool, o: Overlap, e: Call)
    requires Holds(o)
    ensures Exactly(guarded, o, e, Next(guarded, o, e))
  {
    match e
    case OnTick(now, c) => TickCallKeeps(o, now, c);
    case OnClaim(now, c, claim) => ClaimReturnKeeps(o, now, c, claim);
    case OnStart(acked, c) => StartReturnExact(guarded, o, acked, c);
    case OnCompletion(acked, c) => CompletionReturnExact(guarded, o, acked, c);
    case OnFailure(i, acked) => FailReturnExact(guarded, o, i, acked);
    case OnTurnStart(knock, c) => TurnStartCallKeeps(o, knock, c);
    case OnTurnEnd(now, c) => TurnEndCallKeeps(o, now, c);
    case OnRetired => CalmFail(o, false); CalmKeeps(o, FailCall(o, false));
  }

  lemma {:induction false} CourseHolds(guarded: bool, events: seq<Call>)
    ensures Holds(Course(guarded, events))
  {
    if events != [] {
      CourseHolds(guarded, Front(events));
      NextExact(guarded, Course(guarded, Front(events)), Last(events));
    }
  }

  /** At some moment of the course a knock is lost. */
  ghost predicate Loses(guarded: bool, events: seq<Call>) {
    exists j, k :: 0 <= j <= |events| && Lost(Course(guarded, events[..j]), k)
  }

  ghost predicate WipesSome(guarded: bool, events: seq<Call>) {
    exists j :: 0 <= j < |events| && Wipes(guarded, Course(guarded, events[..j]), events[j])
  }

  lemma CourseNext(guarded: bool, events: seq<Call>, j: nat)
    requires j < |events|
    ensures Course(guarded, events[..j + 1]) == Next(guarded, Course(guarded, events[..j]), events[j])
  {
    assert Front(events[..j + 1]) == events[..j];
  }

  /** Over every course of events a knock is lost if and only if at some moment a settlement's answer
      comes back to a doorman that holds another knock, no failure of which is on its way. */
  lemma LosesIff(guarded: bool, events: seq<Call>)
    ensures Loses(guarded, events) <==> WipesSome(guarded, events)
  {
    if j :| 0 <= j < |events| && Wipes(guarded, Course(guarded, events[..j]), events[j]) {
      CourseHolds(guarded, events[..j]);
      NextExact(guarded, Course(guarded, events[..j]), events[j]);
      CourseNext(guarded, events, j);
    }
    if j, k :| 0 <= j <= |events| && Lost(Course(guarded, events[..j]), k) { LostByWipe(guarded, events, j, k); }
  }

  lemma {:induction false} LostByWipe(guarded: bool, events: seq<Call>, j: nat, knock: Knock)
    requires j <= |events| && Lost(Course(guarded, events[..j]), knock)
    ensures WipesSome(guarded, events)
    decreases j
  {
    if j > 0 {
      var o := Course(guarded, events[..j - 1]);
      CourseHolds(guarded, events[..j - 1]);
      NextExact(guarded, o, events[j - 1]);
      CourseNext(guarded, events, j - 1);
      if Lost(o, knock) { LostByWipe(guarded, events, j - 1, knock); }
    }
  }

  ghost predicate StartsTrue(guarded: bool, events: seq<Call>) {
    forall j :: 0 <= j <= |events| ==> StartTrue(Course(guarded, events[..j]))
  }

  ghost predicate BorrowsSome(guarded: bool, events: seq<Call>) {
    exists j :: 0 <= j < |events| && Borrows(guarded, Course(guarded, events[..j]), events[j])
  }

  /** Over every course the doorman is right about the open knock's start if and only if no answer to
      another knock's start comes back to it. */
  lemma StartsTrueIff(guarded: bool, events: seq<Call>)
    ensures StartsTrue(guarded, events) <==> !BorrowsSome(guarded, events)
  {
    if j :| 0 <= j < |events| && Borrows(guarded, Course(guarded, events[..j]), events[j]) {
      CourseHolds(guarded, events[..j]);
      NextExact(guarded, Course(guarded, events[..j]), events[j]);
      CourseNext(guarded, events, j);
      assert StartTrue(Course(guarded, events[..j])) ==> !StartTrue(Course(guarded, events[..j + 1]));
    } else {
      forall j | 0 <= j <= |events| ensures StartTrue(Course(guarded, events[..j])) { StaysTrue(guarded, events, j); }
    }
  }

  lemma {:induction false} StaysTrue(guarded: bool, events: seq<Call>, j: nat)
    requires j <= |events| && !BorrowsSome(guarded, events)
    ensures StartTrue(Course(guarded, events[..j]))
    decreases j
  {
    if j > 0 {
      var o := Course(guarded, events[..j - 1]);
      StaysTrue(guarded, events, j - 1);
      CourseHolds(guarded, events[..j - 1]);
      NextExact(guarded, o, events[j - 1]);
      CourseNext(guarded, events, j - 1);
    }
  }

  /** Asked first whether the open knock is still its own, no answer loses a knock or borrows a start. */
  lemma GuardedIsSafe(events: seq<Call>, knock: Knock)
    ensures !Lost(Course(true, events), knock) && StartTrue(Course(true, events))
  {
    LosesIff(true, events);
    StartsTrueIff(true, events);
    assert events[..|events|] == events;
  }

  // ---------------------------------------------------------------- calls answered at once

  /** Every call under way is answered at once, before anything else happens. */
  function Answered(o: Overlap, c: Session, h: Host): Overlap {
    var a := Next(false, o, OnStart(h.started, c));
    var b := Next(false, a, OnCompletion(h.completed, c));
    Next(false, b, OnFailure(0, h.failed))
  }

  function Whole(o: Overlap, e: Event): Overlap {
    match e
    case EvTick(now, c, h) =>
      var later := c.(idle := c.idleLater);
      Answered(Next(false, Next(false, o, OnTick(now, c)), OnClaim(now, later, h.claim)), c, h)
    case EvTurnStart(knock, h) => Answered(Next(false, o, OnTurnStart(knock, CALM)), CALM, h)
    case EvTurnEnd(now, h) => Answered(Next(false, o, OnTurnEnd(now, CALM)), CALM, h)
    case EvRetired(h) => Answered(Next(false, o, OnRetired), CALM, h)
  }

  const CALM := Session(true, true, true, false, false)

  function Quiet(s: State): Overlap {
    Overlap(s, None, [], Free)
  }

  /** Nothing is under way but, perhaps, the claim whose handler is still running. */
  predicate Alone(o: Overlap, frees: bool) {
    o.settling.None? && o.failing == [] && o.claiming == if frees then Handing else Free
  }

  lemma FailAtOnce(o: Overlap, c: Session, h: Host, frees: bool)
    requires Alone(o, frees)
    ensures Answered(FailCall(o, frees), c, h) == Quiet(FailActive(o.core, h))
  {
  }

  lemma GoOnAtOnce(o: Overlap, c: Session, h: Host, interrupts: bool, frees: bool)
    requires Alone(o, frees)
    ensures var t := GoOn(o, c, interrupts, frees);
            && t.settling.None?
            && Answered(t, c, h) == Quiet(if interrupts then InterruptActive(o.core, c, h) else o.core)
  {
    FailAtOnce(o, c, h, frees);
  }

  lemma CompleteAtOnce(o: Overlap, c: Session, h: Host, q: Settlement)
    requires Alone(o.(settling := None), q.frees) && o.core.active == Some(q.knock) && o.core.startSettled
    ensures var t, s := CompleteCall(o, c, q), SettleObserved(o.core, h);
            && (t.settling.Some? ==> t.settling.value.stage.AwaitCompletion?)
            && Answered(t, c, h) == Quiet(if q.interrupts then InterruptActive(s, c, h) else s)
  {
    if TurnOver(o.core) {
      var noted := Note(o.core, Settling(q.knock, Completed, h.completed));
      var u := o.(core := if h.completed then Clear(noted) else noted, settling := None);
      GoOnAtOnce(u, c, h, q.interrupts, q.frees);
      assert SettleObserved(o.core, h) == u.core;
      assert Next(false, CompleteCall(o, c, q), OnCompletion(h.completed, c)) == GoOn(u, c, q.interrupts, q.frees);
    } else {
      GoOnAtOnce(o.(settling := None), c, h, q.interrupts, q.frees);
    }
  }

  lemma SettleAtOnce(o: Overlap, c: Session, h: Host, interrupts: bool, frees: bool)
    requires Alone(o, frees)
    ensures var s := SettleObserved(o.core, h);
            Answered(SettleCall(o, c, interrupts, frees), c, h)
            == Quiet(if interrupts then InterruptActive(s, c, h) else s)
  {
    if o.core.active.None? {
      GoOnAtOnce(o, c, h, interrupts, frees);
    } else {
      var q := Settlement(o.core.active.value, AwaitStart, interrupts, frees);
      if o.core.startSettled {
        CompleteAtOnce(o, c, h, q);
      } else {
        StartAtOnce(o, c, h, q);
      }
    }
  }

  lemma StartAtOnce(o: Overlap, c: Session, h: Host, q: Settlement)
    requires Alone(o, q.frees) && o.core.active == Some(q.knock) && !o.core.startSettled && q.stage.AwaitStart?
    ensures var s := SettleObserved(o.core, h);
            Answered(o.(settling := Some(q)), c, h) == Quiet(if q.interrupts then InterruptActive(s, c, h) else s)
  {
    var t := o.(core := SettleStart(o.core, h));
    if h.started {
      CompleteAtOnce(t.(settling := Some(q)), c, h, q);
      AckedAtOnce(o, c, h, q);
      AckedOnce(o.core, h);
    } else {
      GoOnAtOnce(t, c, h, q.interrupts, q.frees);
      UnackedAtOnce(o, c, h, q);
    }
  }

  lemma AckedAtOnce(o: Overlap, c: Session, h: Host, q: Settlement)
    requires o.core.active == Some(q.knock) && !o.core.startSettled && q.stage.AwaitStart? && h.started
    ensures var t := o.(core := SettleStart(o.core, h), settling := Some(q));
            && t.core.active == o.core.active && t.core.startSettled
            && Next(false, o.(settling := Some(q)), OnStart(h.started, c)) == CompleteCall(t, c, q)
  {
  }

  lemma AckedOnce(s: State, h: Host)
    requires s.active.Some? && h.started
    ensures SettleObserved(s, h) == SettleObserved(SettleStart(s, h), h)
  {
  }

  lemma UnackedAtOnce(o: Overlap, c: Session, h: Host, q: Settlement)
    requires o.settling.None? && o.core.active == Some(q.knock) && !o.core.startSettled
    requires q.stage.AwaitStart? && !h.started
    ensures var t := o.(core := SettleStart(o.core, h));
            && Next(false, o.(settling := Some(q)), OnStart(h.started, c)) == GoOn(t, c, q.interrupts, q.frees)
            && SettleObserved(o.core, h) == t.core
  {
  }

  lemma DeliverAtOnce(o: Overlap, now: int, c: Session, h: Host, frees: bool)
    requires Alone(o, frees)
    ensures Answered(DeliverCall(o, now, c, frees), c, h) == Quiet(DeliverActive(o.core, now, c.idle, c, h))
  {
    if o.core.active.None? || o.core.delivered || (!c.idle && !c.canAbort) {
    } else if c.sendThrows {
      FailAtOnce(o, c, h, frees);
    } else {
      SettleAtOnce(o.(core := HandOver(o.core, now, c.idle)), c, h, true, frees);
    }
  }

  lemma ClaimAtOnce(s: State, now: int, c: Session, h: Host)
    requires s.active.None?
    ensures Whole(Quiet(s), EvTick(now, c, h)) == Quiet(Tick(s, now, c, h))
  {
    var later, o := c.(idle := c.idleLater), Quiet(s);
    if now < s.nextClaimAt || (!c.idle && !c.canAbort) {
      assert Next(false, o, OnTick(now, c)) == o;
    } else {
      assert Next(false, o, OnTick(now, c)) == o.(claiming := Asking);
      if h.claim.Granted? {
        GrantedAtOnce(s, now, c, h);
      } else {
        UngrantedAtOnce(s, now, c, h);
      }
    }
  }

  lemma GrantedAtOnce(s: State, now: int, c: Session, h: Host)
    requires s.active.None? && h.claim.Granted? && now >= s.nextClaimAt && (c.idle || c.canAbort)
    ensures var later, o := c.(idle := c.idleLater), Quiet(s).(claiming := Asking);
            Answered(Next(false, o, OnClaim(now, later, h.claim)), c, h) == Quiet(Tick(s, now, c, h))
  {
    var k, later, o := h.claim.knock, c.(idle := c.idleLater), Quiet(s).(claiming := Asking);
    var t := Note(Clear(s.(claimFailures := 0, nextClaimAt := 0)).(active := Some(k)), Claimed(k));
    var handing := Quiet(t).(claiming := Handing);
    assert Next(false, o, OnClaim(now, later, h.claim)) == DeliverCall(handing, now, later, true);
    assert Tick(s, now, c, h) == DeliverActive(t, now, c.idleLater, c, h);
    DeliverAtOnce(handing, now, later, h, true);
    SameSession(t, now, c, later, h);
  }

  lemma UngrantedAtOnce(s: State, now: int, c: Session, h: Host)
    requires s.active.None? && !h.claim.Granted? && now >= s.nextClaimAt && (c.idle || c.canAbort)
    ensures var later, o := c.(idle := c.idleLater), Quiet(s).(claiming := Asking);
            Answered(Next(false, o, OnClaim(now, later, h.claim)), c, h) == Quiet(Tick(s, now, c, h))
  {
  }

  /** Delivering and answering ask the session only whether it can abort, throws, and is idle. */
  lemma SameSession(s: State, now: int, c: Session, later: Session, h: Host)
    requires later == c.(idle := later.idle)
    ensures DeliverActive(s, now, later.idle, later, h) == DeliverActive(s, now, later.idle, c, h)
    ensures forall o: Overlap :: Answered(o, later, h) == Answered(o, c, h)
  {
    forall o: Overlap ensures Answered(o, later, h) == Answered(o, c, h) {
      AnsweredAlike(o, c, later, h);
    }
  }

  lemma AnsweredAlike(o: Overlap, c: Session, later: Session, h: Host)
    requires later == c.(idle := later.idle)
    ensures Answered(o, later, h) == Answered(o, c, h)
  {
    assert Next(false, o, OnStart(h.started, later)) == Next(false, o, OnStart(h.started, c));
    var a := Next(false, o, OnStart(h.started, c));
    assert Next(false, a, OnCompletion(h.completed, later)) == Next(false, a, OnCompletion(h.completed, c));
  }

  lemma TickAtOnce(s: State, now: int, c: Session, h: Host)
    requires s.active.Some?
    ensures Whole(Quiet(s), EvTick(now, c, h)) == Quiet(Tick(s, now, c, h))
  {
    if !s.delivered {
      DeliverAtOnce(Quiet(s), now, c, h, false);
    } else if Overdue(s, now) {
      FailAtOnce(Quiet(s), c, h, false);
    } else {
      SettleAtOnce(Quiet(s), c, h, true, false);
    }
  }

  /** With every call answered at once, and only then another event, this is the doorman of
      `KnockModel`, event by event. */
  lemma AtOnceIsAtomic(s: State, e: Event)
    ensures Whole(Quiet(s), e) == Quiet(Step(s, e))
  {
    var o := Quiet(s);
    match e
    case EvTick(now, c, h) => if s.active.None? { ClaimAtOnce(s, now, c, h); } else { TickAtOnce(s, now, c, h); }
    case EvTurnStart(knock, h) =>
      SettleAtOnce(o.(core := Note(s.(turnStarted := true), Began(knock, true))), CALM, h, false, false);
    case EvTurnEnd(now, h) =>
      if s.active.Some? { SettleAtOnce(o.(core := MarkEnded(s, now)), CALM, h, false, false); }
    case EvRetired(h) => FailAtOnce(o, CALM, h, false);
  }

  // ---------------------------------------------------------------- two courses that go wrong

  const IDLE := Session(true, true, true, false, false)

  lemma Onwards(events: seq<Call>, e: Call)
    ensures Course(false, events + [e]) == Next(false, Course(false, events), e)
  {
    Snoc(events, e);
  }

  const FIRST := [OnTick(0, IDLE), OnClaim(0, IDLE, Granted("first")), OnStart(false, IDLE)]

  /** The first knock is delivered, and its start not acknowledged. */
  function AfterFirst(): Overlap {
    var s := Note(Note(INITIAL, Claimed("first")), Delivered("first"));
    var t := Note(s, Settling("first", KnockModel.Started, false));
    AT_REST.(core := t.(active := Some("first"), delivered := true, deliveredAt := Some(0)))
  }

  lemma FirstIsDelivered()
    ensures Course(false, FIRST) == AfterFirst()
  {
    var a, b := OnTick(0, IDLE), OnClaim(0, IDLE, Granted("first"));
    Onwards([], a);
    Onwards([a], b);
    Onwards([a, b], OnStart(false, IDLE));
    assert [] + [a] == [a] && [a] + [b] == [a, b] && [a, b] + [OnStart(false, IDLE)] == FIRST;
    assert Next(false, AT_REST, a) == AT_REST.(claiming := Asking);
  }

  /** The doorman at rest again, with the second knock claimed and handed over at this time. */
  function SecondHeld(o: Overlap, now: int): State {
    var s := Clear(o.core.(claimFailures := 0, nextClaimAt := 0)).(active := Some("second"));
    HandOver(Note(s, Claimed("second")), now, true)
  }

  lemma SecondComes(events: seq<Call>, now: int)
    requires var o := Course(false, events); o.core.active.None? && o.claiming.Free? && o.core.nextClaimAt <= now
    ensures var o, t := Course(false, events),
                        Course(false, events + [OnTick(now, IDLE), OnClaim(now, IDLE, Granted("second"))]);
            && t.core == SecondHeld(o, now) && t.failing == o.failing
            && (o.settling.Some? ==> t.settling == o.settling && t.claiming.Free?)
  {
    var o, a, b := Course(false, events), OnTick(now, IDLE), OnClaim(now, IDLE, Granted("second"));
    Onwards(events, a);
    Onwards(events + [a], b);
    assert events + [a] + [b] == events + [a, b];
    assert Next(false, o, a) == o.(claiming := Asking);
  }

  const FORGETTING := FIRST + [OnTick(25_000, IDLE), OnTick(27_000, IDLE), OnFailure(0, true),
                               OnTick(29_000, IDLE), OnClaim(29_000, IDLE, Granted("second")), OnFailure(0, true)]

  /** Two polls find the first knock overdue while the first failure is still on its way; the first
      answer frees the doorman, the next poll claims the second knock, and the second answer wipes it. */
  lemma OverlapForgetsAKnock()
    ensures Lost(Course(false, FORGETTING), "second")
  {
    var freed := FIRST + [OnTick(25_000, IDLE), OnTick(27_000, IDLE), OnFailure(0, true)];
    TwiceFailed();
    SecondComes(freed, 29_000);
    var held := freed + [OnTick(29_000, IDLE), OnClaim(29_000, IDLE, Granted("second"))];
    CourseHolds(false, held);
    Onwards(held, OnFailure(0, true));
    assert held + [OnFailure(0, true)] == FORGETTING;
    NextExact(false, Course(false, held), OnFailure(0, true));
  }

  lemma TwiceFailed()
    ensures var o := Course(false, FIRST + [OnTick(25_000, IDLE), OnTick(27_000, IDLE), OnFailure(0, true)]);
            && o.core.active.None? && o.claiming.Free? && o.core.nextClaimAt == 0
            && o.failing == [Failure("first", false)]
  {
    var a, b, f := OnTick(25_000, IDLE), OnTick(27_000, IDLE), Failure("first", false);
    FirstIsDelivered();
    Onwards(FIRST, a);
    Onwards(FIRST + [a], b);
    Onwards(FIRST + [a, b], OnFailure(0, true));
    assert FIRST + [a] + [b] == FIRST + [a, b];
    assert FIRST + [a, b] + [OnFailure(0, true)] == FIRST + [a, b, OnFailure(0, true)];
    assert Next(false, AfterFirst(), a) == AfterFirst().(failing := [f]);
    assert Next(false, AfterFirst().(failing := [f]), b) == AfterFirst().(failing := [f, f]);
  }

  const BORROWING := FIRST + [OnTick(24_000, IDLE), OnTick(25_000, IDLE), OnFailure(0, true),
                              OnTick(26_000, IDLE), OnClaim(26_000, IDLE, Granted("second")), OnStart(true, IDLE)]

  /** The first knock fails while the Host is asked once more to acknowledge its start; the second knock is
      claimed; and the answer for the first makes the doorman take the second's start for acknowledged. */
  lemma OverlapBorrowsAStart()
    ensures var o := Course(false, BORROWING);
            && o.core.active == Some("second") && o.core.startSettled && !StartTrue(o)
            && forall i :: 0 <= i < |o.core.trace| && o.core.trace[i].Settling? ==> o.core.trace[i].knock == "first"
  {
    var freed := FIRST + [OnTick(24_000, IDLE), OnTick(25_000, IDLE), OnFailure(0, true)];
    FailedWhileAsking();
    SecondComes(freed, 26_000);
    var held := freed + [OnTick(26_000, IDLE), OnClaim(26_000, IDLE, Granted("second"))];
    CourseHolds(false, held);
    Onwards(held, OnStart(true, IDLE));
    assert held + [OnStart(true, IDLE)] == BORROWING;
    NextExact(false, Course(false, held), OnStart(true, IDLE));
  }

  lemma FailedWhileAsking()
    ensures var o := Course(false, FIRST + [OnTick(24_000, IDLE), OnTick(25_000, IDLE), OnFailure(0, true)]);
            && o.core.active.None? && o.claiming.Free? && o.core.nextClaimAt == 0 && o.failing == []
            && o.settling == Some(Settlement("first", AwaitStart, true, false))
            && forall i :: 0 <= i < |o.core.trace| ==> o.core.trace[i].knock == "first"
  {
    var a, b, q := OnTick(24_000, IDLE), OnTick(25_000, IDLE), Settlement("first", AwaitStart, true, false);
    FirstIsDelivered();
    Onwards(FIRST, a);
    Onwards(FIRST + [a], b);
    Onwards(FIRST + [a, b], OnFailure(0, true));
    assert FIRST + [a] + [b] == FIRST + [a, b];
    assert FIRST + [a, b] + [OnFailure(0, true)] == FIRST + [a, b, OnFailure(0, true)];
    var asked := AfterFirst().(settling := Some(q));
    assert Next(false, AfterFirst(), a) == asked;
    assert Next(false, asked, b) == asked.(failing := [Failure("first", false)]);
  }

  // ---------------------------------------------------------------- one claim at a time

  /** No claim is asked for that was not. */
  predicate AsksNothing(o: Overlap, t: Overlap) {
    t.claiming.Asking? ==> o.claiming.Asking?
  }

  lemma GoOnAsksNothing(o: Overlap, c: Session, interrupts: bool, frees: bool)
    ensures AsksNothing(o, GoOn(o, c, interrupts, frees))
  {
  }

  lemma SettleAsksNothing(o: Overlap, c: Session, interrupts: bool, frees: bool)
    ensures AsksNothing(o, SettleCall(o, c, interrupts, frees))
  {
    GoOnAsksNothing(o, c, interrupts, frees);
    GoOnAsksNothing(o.(settling := None), c, interrupts, frees);
  }

  lemma DeliverAsksNothing(o: Overlap, now: int, c: Session, frees: bool)
    ensures AsksNothing(o, DeliverCall(o, now, c, frees))
  {
    if o.core.active.Some? { SettleAsksNothing(o.(core := HandOver(o.core, now, c.idle)), c, true, frees); }
  }

  lemma StartAsksNothing(guarded: bool, o: Overlap, acked: bool, c: Session)
    ensures AsksNothing(o, StartReturn(guarded, o, acked, c))
  {
    if o.settling.Some? {
      var q := o.settling.value;
      var t := o.(core := Note(o.core, Settling(q.knock, KnockModel.Started, acked)));
      GoOnAsksNothing(t.(settling := None), c, q.interrupts, q.frees);
      GoOnAsksNothing(t.(core := t.core.(startSettled := true), settling := None), c, q.interrupts, q.frees);
    }
  }

  /** A claim goes out exactly by a poll that finds no knock open, its time come, the session idle or able to be
      interrupted, and no claim under way, neither unanswered nor with its knock still being handed over. */
  lemma ClaimsIff(guarded: bool, o: Overlap, e: Call)
    ensures Next(guarded, o, e).claiming.Asking? && !o.claiming.Asking?
            <==> && e.OnTick? && o.claiming.Free? && o.core.active.None? && e.now >= o.core.nextClaimAt
                 && (e.session.idle || e.session.canAbort)
  {
    match e
    case OnTick(now, c) =>
      DeliverAsksNothing(o, now, c, false);
      SettleAsksNothing(o, c, true, false);
    case OnClaim(_, _, _) =>
    case OnStart(acked, c) => StartAsksNothing(guarded, o, acked, c);
    case OnCompletion(acked, c) =>
    case OnFailure(_, _) =>
    case OnTurnStart(knock, c) =>
      SettleAsksNothing(o.(core := Note(o.core.(turnStarted := true), Began(knock, true))), c, false, false);
    case OnTurnEnd(now, c) =>
      if o.core.active.Some? { SettleAsksNothing(o.(core := MarkEnded(o.core, now)), c, false, false); }
    case OnRetired =>
  }
}
