/** With Host calls cut at their awaits: for which knock "completed" is asked, and whether it was earned. */
module KnockCompletions {
  import opened Basics
  import opened KnockModel
  import opened KnockTheorems
  import opened KnockOverlap
  import opened KnockOverlapTheorems

  // ---------------------------------------------------------------- marks

  /** The knocks whose turn was marked as begun since they were claimed. */
  function Begun(t: seq<Entry>): set<Knock> {
    if t == [] then {}
    else
      var e, before := Last(t), Begun(Front(t));
      if e.Claimed? then before - {e.knock} else if e.Began? then before + {e.knock} else before
  }

  /** The knocks whose turn was marked as ended since they were claimed. */
  function Finished(t: seq<Entry>): set<Knock> {
    if t == [] then {}
    else
      var e, before := Last(t), Finished(Front(t));
      if e.Claimed? then before - {e.knock} else if e.Ended? then before + {e.knock} else before
  }

  lemma MarksGrow(t: seq<Entry>, e: Entry)
    ensures Begun(t + [e]) == if e.Claimed? then Begun(t) - {e.knock}
                              else if e.Began? then Begun(t) + {e.knock} else Begun(t)
    ensures Finished(t + [e]) == if e.Claimed? then Finished(t) - {e.knock}
                                 else if e.Ended? then Finished(t) + {e.knock} else Finished(t)
  {
    Snoc(t, e);
  }

  /** The marks the doorman holds are those of its open knock. */
  ghost predicate MarksTrue(s: State) {
    if s.active.None? then !s.turnStarted && !s.turnEnded
    else
      && (s.turnStarted ==> s.active.value in Begun(s.trace))
      && (s.turnEnded ==> s.active.value in Finished(s.trace))
  }

  /** The same open knock with the same marks. */
  ghost predicate Steady(s: State, t: State) {
    && t.active == s.active && t.turnStarted == s.turnStarted && t.turnEnded == s.turnEnded
    && t.startSettled == s.startSettled
    && Begun(t.trace) == Begun(s.trace) && Finished(t.trace) == Finished(s.trace)
    && Acknowledged(t.trace) == Acknowledged(s.trace)
  }

  // ---------------------------------------------------------------- asking for a completion

  predicate Completing(q: Option<Settlement>) {
    q.Some? && q.value.stage.AwaitCompletion?
  }

  /** Between the two the Host is asked to take a knock as completed. */
  predicate Asks(o: Overlap, t: Overlap) {
    Completing(t.settling) && !Completing(o.settling)
  }

  /** What is asked is asked for the open knock, whose turn was marked as begun and ended since its claim. */
  ghost predicate Rightful(t: Overlap)
    requires t.settling.Some?
  {
    var k := t.settling.value.knock;
    t.core.active == Some(k) && k in Begun(t.core.trace) && k in Finished(t.core.trace)
  }

  /** And the Host had acknowledged its start. */
  ghost predicate Due(t: Overlap)
    requires t.settling.Some?
  {
    Rightful(t) && t.settling.value.knock in Acknowledged(t.core.trace)
  }

  /** The acknowledgement of another knock's start comes back while the open knock's turn is over. */
  predicate Misdirects(guarded: bool, o: Overlap, e: Call) {
    Borrows(guarded, o, e) && TurnOver(o.core)
  }

  /** Nothing asked wrongly, nothing asked with a start not taken for acknowledged. */
  ghost predicate Fair(o: Overlap, t: Overlap) {
    MarksTrue(t.core) && (Asks(o, t) ==> Rightful(t) && t.core.startSettled)
  }

  lemma SteadyNote(s: State, t: State, e: Entry)
    requires t == s.(trace := s.trace + [e], interruptSent := t.interruptSent) && e.Interrupted?
    ensures Steady(s, t)
  {
    MarksGrow(s.trace, e);
    Grows(s.trace, e);
  }

  lemma GoOnSteady(o: Overlap, c: Session, interrupts: bool, frees: bool)
    ensures var t := GoOn(o, c, interrupts, frees); Steady(o.core, t.core) && t.settling == o.settling
  {
    var s := o.core;
    if interrupts && s.active.Some? {
      SteadyNote(s, Note(s.(interruptSent := true), Interrupted(s.active.value)), Interrupted(s.active.value));
    }
  }

  lemma SettleFair(o: Overlap, c: Session, interrupts: bool, frees: bool)
    requires MarksTrue(o.core)
    ensures var t := SettleCall(o, c, interrupts, frees); Steady(o.core, t.core) && Fair(o, t)
  {
    GoOnSteady(o, c, interrupts, frees);
    GoOnSteady(o.(settling := None), c, interrupts, frees);
  }

  lemma DeliverFair(o: Overlap, now: int, c: Session, frees: bool)
    requires MarksTrue(o.core)
    ensures Fair(o, DeliverCall(o, now, c, frees))
  {
    if o.core.active.Some? {
      var t := o.(core := HandOver(o.core, now, c.idle));
      MarksGrow(o.core.trace, Delivered(o.core.active.value));
      SettleFair(t, c, true, frees);
    }
  }

  lemma TickFair(o: Overlap, now: int, c: Session)
    requires MarksTrue(o.core)
    ensures Fair(o, TickCall(o, now, c))
  {
    DeliverFair(o, now, c, false);
    SettleFair(o, c, true, false);
  }

  lemma ClaimFair(o: Overlap, now: int, c: Session, claim: Claim)
    requires MarksTrue(o.core)
    ensures Fair(o, ClaimReturn(o, now, c, claim))
  {
    if o.claiming.Asking? && claim.Granted? {
      var k := claim.knock;
      var s := Note(Clear(o.core.(claimFailures := 0, nextClaimAt := 0)).(active := Some(k)), Claimed(k));
      DeliverFair(o.(core := s, claiming := Handing), now, c, true);
    }
  }

  lemma TurnStartFair(o: Overlap, knock: Knock, c: Session)
    requires MarksTrue(o.core)
    ensures Fair(o, TurnStartCall(o, knock, c))
  {
    MarksGrow(o.core.trace, Began(knock, true));
    if o.core.active == Some(knock) {
      SettleFair(o.(core := Note(o.core.(turnStarted := true), Began(knock, true))), c, false, false);
    }
  }

  /** The knock's turn is over, by its own marks. */
  lemma MarkEndedTrue(s: State, now: int)
    requires s.active.Some? && MarksTrue(s)
    ensures var t := MarkEnded(s, now);
            && MarksTrue(t) && TurnOver(t) && t.active == s.active && t.startSettled == s.startSettled
            && Acknowledged(t.trace) == Acknowledged(s.trace)
  {
    var k := s.active.value;
    var began := if s.turnStarted then s else Note(s.(turnStarted := true), Began(k, false));
    if !s.turnStarted {
      MarksGrow(s.trace, Began(k, false));
      Grows(s.trace, Began(k, false));
    }
    MarksGrow(began.trace, Ended(k));
    Grows(began.trace, Ended(k));
  }

  lemma ConsumedTrue(s: State)
    requires s.active.Some? && MarksTrue(s)
    ensures MarksTrue(Note(s.(interruptedTurnEnded := true), Consumed(s.active.value)))
  {
    MarksGrow(s.trace, Consumed(s.active.value));
  }

  lemma TurnEndFair(o: Overlap, now: int, c: Session)
    requires MarksTrue(o.core)
    ensures Fair(o, TurnEndCall(o, now, c))
  {
    var s := o.core;
    if s.active.Some? {
      if !s.turnStarted && s.interruptSent && !s.interruptedTurnEnded {
        ConsumedTrue(s);
      } else {
        var t := o.(core := MarkEnded(s, now));
        MarkEndedTrue(s, now);
        SettleFair(t, c, false, false);
        assert TurnEndCall(o, now, c) == SettleCall(t, c, false, false);
      }
    }
  }

  lemma SettlingMarksNothing(s: State, e: Entry)
    requires e.Settling?
    ensures Begun(Note(s, e).trace) == Begun(s.trace) && Finished(Note(s, e).trace) == Finished(s.trace)
  {
    MarksGrow(s.trace, e);
  }

  /** The open knock let go of, or as it was. */
  lemma LetGoTrue(s: State, e: Entry, clears: bool)
    requires MarksTrue(s) && e.Settling?
    ensures MarksTrue(if clears then Clear(Note(s, e)) else Note(s, e))
  {
    SettlingMarksNothing(s, e);
  }

  lemma GoOnFair(o: Overlap, t: Overlap, c: Session, interrupts: bool, frees: bool)
    requires MarksTrue(t.core) && t.settling.None?
    ensures Fair(o, GoOn(t, c, interrupts, frees))
  {
    GoOnSteady(t, c, interrupts, frees);
  }

  lemma CompletionFair(guarded: bool, o: Overlap, acked: bool, c: Session)
    requires MarksTrue(o.core)
    ensures Fair(o, CompletionReturn(guarded, o, acked, c))
  {
    if Completing(o.settling) {
      var q := o.settling.value;
      var e, clears := Settling(q.knock, Completed, acked), acked && Writes(guarded, o.core, q.knock);
      var s := if clears then Clear(Note(o.core, e)) else Note(o.core, e);
      LetGoTrue(o.core, e, clears);
      GoOnFair(o, o.(core := s, settling := None), c, q.interrupts, q.frees);
      assert CompletionReturn(guarded, o, acked, c)
          == GoOn(o.(core := s, settling := None), c, q.interrupts, q.frees);
    }
  }

  lemma FailureFair(guarded: bool, o: Overlap, i: nat, acked: bool)
    requires MarksTrue(o.core)
    ensures Fair(o, FailReturn(guarded, o, i, acked))
  {
    if i < |o.failing| {
      var k := o.failing[i].knock;
      LetGoTrue(o.core, Settling(k, Failed, acked), Writes(guarded, o.core, k));
    }
  }

  /** What the answer to a start leads to: a completion asked for another knock exactly when it misdirects. */
  lemma StartFair(guarded: bool, o: Overlap, acked: bool, c: Session)
    requires MarksTrue(o.core)
    ensures var e, t := OnStart(acked, c), StartReturn(guarded, o, acked, c);
            && MarksTrue(t.core) && (Asks(o, t) ==> t.core.startSettled)
            && (Misdirects(guarded, o, e) <==> Asks(o, t) && !Rightful(t))
  {
    if o.settling.Some? && o.settling.value.stage.AwaitStart? {
      var q := o.settling.value;
      var t := o.(core := Note(o.core, Settling(q.knock, KnockModel.Started, acked)));
      SettlingMarksNothing(o.core, Settling(q.knock, KnockModel.Started, acked));
      GoOnSteady(t.(settling := None), c, q.interrupts, q.frees);
      GoOnSteady(t.(core := t.core.(startSettled := true), settling := None), c, q.interrupts, q.frees);
    }
  }

  /** Event by event: a completion is asked wrongly exactly by an event that misdirects. */
  lemma NextAsks(guarded: bool, o: Overlap, e: Call)
    requires MarksTrue(o.core)
    ensures var t := Next(guarded, o, e);
            && MarksTrue(t.core) && (Asks(o, t) ==> t.core.startSettled)
            && (Misdirects(guarded, o, e) <==> Asks(o, t) && !Rightful(t))
  {
    match e
    case OnTick(now, c) => TickFair(o, now, c);
    case OnClaim(now, c, claim) => ClaimFair(o, now, c, claim);
    case OnStart(acked, c) => StartFair(guarded, o, acked, c);
    case OnCompletion(acked, c) => CompletionFair(guarded, o, acked, c);
    case OnFailure(i, acked) => FailureFair(guarded, o, i, acked);
    case OnTurnStart(knock, c) => TurnStartFair(o, knock, c);
    case OnTurnEnd(now, c) => TurnEndFair(o, now, c);
    case OnRetired =>
  }

  lemma {:induction false} CourseMarks(guarded: bool, events: seq<Call>)
    ensures MarksTrue(Course(guarded, events).core)
  {
    if events != [] {
      CourseMarks(guarded, Front(events));
      NextAsks(guarded, Course(guarded, Front(events)), Last(events));
    }
  }

  // ---------------------------------------------------------------- over every course

  ghost predicate RightfulAt(guarded: bool, events: seq<Call>, j: nat)
    requires j < |events|
  {
    var o := Course(guarded, events[..j]);
    var t := Next(guarded, o, events[j]);
    Asks(o, t) ==> Rightful(t)
  }

  predicate MisdirectsAt(guarded: bool, events: seq<Call>, j: nat)
    requires j < |events|
  {
    Misdirects(guarded, Course(guarded, events[..j]), events[j])
  }

  /** Over every course: each completion asked for is that of the open knock, its turn marked as begun and
      ended since its claim, if and only if no acknowledgement of another knock's start comes back while the
      open knock's turn is over. */
  lemma CompletionsRightfulIff(guarded: bool, events: seq<Call>)
    ensures (forall j: nat :: j < |events| ==> RightfulAt(guarded, events, j))
            <==> !exists j: nat :: j < |events| && MisdirectsAt(guarded, events, j)
  {
    forall j: nat | j < |events| ensures RightfulAt(guarded, events, j) <==> !MisdirectsAt(guarded, events, j) {
      CourseMarks(guarded, events[..j]);
      NextAsks(guarded, Course(guarded, events[..j]), events[j]);
    }
  }

  ghost predicate DueAt(guarded: bool, events: seq<Call>, j: nat)
    requires j < |events|
  {
    var o := Course(guarded, events[..j]);
    var t := Next(guarded, o, events[j]);
    Asks(o, t) ==> Due(t)
  }

  predicate BorrowsAt(guarded: bool, events: seq<Call>, j: nat)
    requires j < |events|
  {
    Borrows(guarded, Course(guarded, events[..j]), events[j])
  }

  /** No acknowledgement of another knock's start comes back to the doorman from the n-th event on. */
  ghost predicate NoBorrowFrom(guarded: bool, events: seq<Call>, n: nat) {
    forall j: nat :: n <= j < |events| ==> !BorrowsAt(guarded, events, j)
  }

  ghost predicate AllDue(guarded: bool, events: seq<Call>) {
    forall j: nat :: j < |events| ==> DueAt(guarded, events, j)
  }

  /** Without a borrowed start every completion asked for was earned. */
  lemma UnborrowedAreDue(guarded: bool, events: seq<Call>)
    requires NoBorrowFrom(guarded, events, 0)
    ensures AllDue(guarded, events)
  {
    assert !BorrowsSome(guarded, events) by {
      if j :| 0 <= j < |events| && Borrows(guarded, Course(guarded, events[..j]), events[j]) {
        assert BorrowsAt(guarded, events, j);
      }
    }
    StartsTrueIff(guarded, events);
    forall j: nat | j < |events| ensures DueAt(guarded, events, j) {
      CourseMarks(guarded, events[..j]);
      NextAsks(guarded, Course(guarded, events[..j]), events[j]);
      assert !BorrowsAt(guarded, events, j);
      assert StartTrue(Course(guarded, events[..j + 1]));
      CourseNext(guarded, events, j);
    }
  }

  // ---------------------------------------------------------------- after a start was borrowed

  /** The open knock counts as started, and nothing is under way that would settle it, but its start was
      not acknowledged. */
  ghost predicate Wrong(o: Overlap) {
    && o.core.active.Some? && o.core.startSettled && o.settling.None? && MarksTrue(o.core)
    && o.core.active.value !in Acknowledged(o.core.trace)
  }

  /** What a borrowed start leads to at once: a completion for another knock, or a doorman in the wrong. */
  lemma BorrowedStart(guarded: bool, o: Overlap, e: Call)
    requires Borrows(guarded, o, e) && Holds(o) && MarksTrue(o.core)
    ensures var t := Next(guarded, o, e); if TurnOver(o.core) then Asks(o, t) && !Due(t) else Wrong(t)
  {
    NextAsks(guarded, o, e);
    if !TurnOver(o.core) {
      var q := o.settling.value;
      var s := Note(o.core, Settling(q.knock, KnockModel.Started, true)).(startSettled := true);
      Grows(o.core.trace, Settling(q.knock, KnockModel.Started, true));
      GoOnSteady(o.(core := s, settling := None), e.session, q.interrupts, q.frees);
    }
  }

  /** The end of a turn asks for the completion, unless it is taken for that of the interrupted turn. */
  lemma EndAsks(guarded: bool, o: Overlap, now: int, c: Session)
    requires Wrong(o)
    ensures var s, t := o.core, Next(guarded, o, OnTurnEnd(now, c));
            if !s.turnStarted && s.interruptSent && !s.interruptedTurnEnded
            then Wrong(t) && t.core.interruptedTurnEnded
            else Asks(o, t) && !Due(t)
  {
    var s := o.core;
    if !s.turnStarted && s.interruptSent && !s.interruptedTurnEnded {
      MarksGrow(s.trace, Consumed(s.active.value));
      Grows(s.trace, Consumed(s.active.value));
    } else {
      MarkEndedTrue(s, now);
    }
  }

  lemma CourseMore(guarded: bool, events: seq<Call>, e: Call, more: seq<Call>)
    ensures var all, n := events + [e] + more, |events|;
            && all[n] == e && all[..n] == events && all[..n + 1] == events + [e]
            && Course(guarded, events + [e]) == Next(guarded, Course(guarded, events), e)
  {
    Snoc(events, e);
  }

  /** Two ends of a turn: one may be taken for that of the interrupted turn. */
  lemma WrongAsks(guarded: bool, events: seq<Call>, c: Session)
    requires Wrong(Course(guarded, events))
    ensures var ends := [OnTurnEnd(0, c), OnTurnEnd(0, c)];
            !AllDue(guarded, events + ends) && NoBorrowFrom(guarded, events + ends, |events|)
  {
    var end := OnTurnEnd(0, c);
    var all, o := events + [end, end], Course(guarded, events);
    assert all == events + [end] + [end] && all == events + [end] + [end] + [];
    CourseMore(guarded, events, end, [end]);
    EndAsks(guarded, o, 0, c);
    var t := Next(guarded, o, end);
    if Asks(o, t) && !Due(t) {
      assert !DueAt(guarded, all, |events|);
    } else {
      CourseMore(guarded, events + [end], end, []);
      EndAsks(guarded, t, 0, c);
      assert !DueAt(guarded, all, |events| + 1);
    }
  }

  lemma BorrowsAtLonger(guarded: bool, events: seq<Call>, more: seq<Call>, j: nat)
    requires j < |events|
    ensures BorrowsAt(guarded, events + more, j) <==> BorrowsAt(guarded, events, j)
  {
    assert (events + more)[..j] == events[..j] && (events + more)[j] == events[j];
  }

  lemma NoBorrowThen(guarded: bool, events: seq<Call>, more: seq<Call>)
    requires NoBorrowFrom(guarded, events, 0) && NoBorrowFrom(guarded, events + more, |events|)
    ensures NoBorrowFrom(guarded, events + more, 0)
  {
    forall j: nat | j < |events + more| ensures !BorrowsAt(guarded, events + more, j) {
      if j < |events| { BorrowsAtLonger(guarded, events, more, j); }
    }
  }

  lemma NoBorrowNow(guarded: bool, events: seq<Call>, e: Call)
    requires NoBorrowFrom(guarded, events, 0) && !Borrows(guarded, Course(guarded, events), e)
    ensures NoBorrowFrom(guarded, events + [e], 0)
  {
    assert (events + [e])[..|events|] == events;
    assert !BorrowsAt(guarded, events + [e], |events|);
    NoBorrowThen(guarded, events, [e]);
  }

  lemma BorrowedIsSeen(guarded: bool, events: seq<Call>, e: Call, c: Session) returns (more: seq<Call>)
    requires Borrows(guarded, Course(guarded, events), e)
    ensures NoBorrowFrom(guarded, events + [e] + more, |events| + 1) && !AllDue(guarded, events + [e] + more)
  {
    var o := Course(guarded, events);
    CourseHolds(guarded, events);
    CourseMarks(guarded, events);
    BorrowedStart(guarded, o, e);
    more := [];
    CourseMore(guarded, events, e, more);
    if TurnOver(o.core) {
      assert !DueAt(guarded, events + [e] + more, |events|);
    } else {
      more := [OnTurnEnd(0, c), OnTurnEnd(0, c)];
      WrongAsks(guarded, events + [e], c);
    }
  }

  /** As long as no start was borrowed: an event is followed by no unearned completion, in any course that
      goes on without borrowing one, if and only if it borrows none itself. */
  lemma CompletionsDueIff(guarded: bool, events: seq<Call>, e: Call)
    requires NoBorrowFrom(guarded, events, 0)
    ensures (forall more :: NoBorrowFrom(guarded, events + [e] + more, |events| + 1)
                            ==> AllDue(guarded, events + [e] + more))
            <==> !Borrows(guarded, Course(guarded, events), e)
  {
    if Borrows(guarded, Course(guarded, events), e) {
      var more := BorrowedIsSeen(guarded, events, e, CALM);
    } else {
      forall more | NoBorrowFrom(guarded, events + [e] + more, |events| + 1)
        ensures AllDue(guarded, events + [e] + more)
      {
        NoBorrowNow(guarded, events, e);
        NoBorrowThen(guarded, events + [e], more);
        UnborrowedAreDue(guarded, events + [e] + more);
      }
    }
  }
}
