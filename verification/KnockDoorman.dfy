/** The hallway-knock doorman object, its flags and timestamps set in place.  Each Host call is one
    atomic step whose answer the handler is given. */
module KnockDoormanClass {
  import opened Basics
  import opened KnockModel
  import opened KnockTheorems

  class KnockDoorman {
    var active: Option<Knock>
    var delivered: bool
    var deliveredAt: Option<int>
    var turnStarted: bool
    var startSettled: bool
    var turnEnded: bool
    var turnEndedAt: Option<int>
    var interruptRequested: bool
    var interruptSent: bool
    var interruptedTurnEnded: bool
    var claimFailures: nat
    var nextClaimAt: int
    ghost var trace: seq<Entry>

    ghost function Snapshot(): State
      reads this
    {
      State(active, delivered, deliveredAt, turnStarted, startSettled, turnEnded, turnEndedAt, interruptRequested,
            interruptSent, interruptedTurnEnded, claimFailures, nextClaimAt, trace)
    }

    ghost predicate Valid()
      reads this
    {
      Inv(Snapshot())
    }

    constructor ()
      ensures Valid() && Snapshot() == INITIAL
    {
      active, delivered, deliveredAt, turnStarted, startSettled := None, false, None, false, false;
      turnEnded, turnEndedAt := false, None;
      interruptRequested, interruptSent, interruptedTurnEnded := false, false, false;
      claimFailures, nextClaimAt, trace := 0, 0, [];
    }

    method ClearActiveKnock()
      modifies this
      ensures Snapshot() == Clear(old(Snapshot()))
    {
      active, turnEndedAt := None, None;
      delivered, deliveredAt := false, None;
      ResetTurn();
      ResetInterrupt();
    }

    method ResetTurn()
      modifies `turnStarted, `startSettled, `turnEnded
      ensures Snapshot() == old(Snapshot()).(turnStarted := false, startSettled := false, turnEnded := false)
    {
      turnStarted, startSettled, turnEnded := false, false, false;
    }

    method ResetInterrupt()
      modifies `interruptRequested, `interruptSent, `interruptedTurnEnded
      ensures Snapshot() == old(Snapshot()).(interruptRequested := false, interruptSent := false,
                                             interruptedTurnEnded := false)
    {
      interruptRequested, interruptSent, interruptedTurnEnded := false, false, false;
    }

    method FailActiveKnock(h: Host)
      modifies this
      ensures Snapshot() == FailActive(old(Snapshot()), h)
    {
      if active.None? {
        return;
      }
      trace := trace + [Settling(active.value, Failed, h.failed)];
      ClearActiveKnock();
    }

    method InterruptActiveTurn(c: Session, h: Host)
      modifies this
      ensures Snapshot() == InterruptActive(old(Snapshot()), c, h)
    {
      if active.None? || !interruptRequested || interruptSent || !startSettled {
        return;
      }
      if !c.canAbort {
        FailActiveKnock(h);
        return;
      }
      if c.abortThrows {
        FailActiveKnock(h);
        return;
      }
      interruptSent := true;
      trace := trace + [Interrupted(active.value)];
    }

    method SettleObservedTurn(h: Host)
      modifies this
      ensures Snapshot() == SettleObserved(old(Snapshot()), h)
    {
      if active.None? {
        return;
      }
      if !startSettled {
        trace := trace + [Settling(active.value, Started, h.started)];
        if !h.started {
          return;
        }
        startSettled := true;
      }
      if !turnStarted || !turnEnded {
        return;
      }
      trace := trace + [Settling(active.value, Completed, h.completed)];
      if h.completed {
        ClearActiveKnock();
      }
    }

    method HandOverKnock(now: int, idle: bool)
      requires active.Some?
      modifies this
      ensures Snapshot() == HandOver(old(Snapshot()), now, idle)
    {
      MarkDelivered(now);
      ResetTurn();
      interruptRequested, interruptSent, interruptedTurnEnded := !idle, false, false;
    }

    method MarkDelivered(now: int)
      requires active.Some?
      modifies `delivered, `deliveredAt, `trace
      ensures Snapshot() == Note(old(Snapshot()).(delivered := true, deliveredAt := Some(now)), Delivered(active.value))
    {
      trace := trace + [Delivered(active.value)];
      delivered, deliveredAt := true, Some(now);
    }

    method DeliverActiveKnock(now: int, idle: bool, c: Session, h: Host)
      modifies this
      ensures Snapshot() == DeliverActive(old(Snapshot()), now, idle, c, h)
    {
      if active.None? || delivered {
        return;
      }
      if !idle && !c.canAbort {
        return;
      }
      if c.sendThrows {
        FailActiveKnock(h);
        return;
      }
      HandOverKnock(now, idle);
      SettleObservedTurn(h);
      InterruptActiveTurn(c, h);
    }

    method ClaimKnock(now: int, c: Session, h: Host)
      modifies this
      ensures Snapshot() == ClaimNext(old(Snapshot()), now, c, h)
    {
      if now < nextClaimAt || (!c.idle && !c.canAbort) {
        return;
      }
      if h.claim.ClaimFails? {
        claimFailures := claimFailures + 1;
        nextClaimAt := now + Backoff(claimFailures);
        return;
      }
      claimFailures, nextClaimAt := 0, 0;
      if h.claim.NoKnock? {
        return;
      }
      ClearActiveKnock();
      active := Some(h.claim.knock);
      trace := trace + [Claimed(h.claim.knock)];
      DeliverActiveKnock(now, c.idleLater, c, h);
    }

    method TickDoorman(now: int, c: Session, h: Host)
      requires Valid()
      modifies this
      ensures Valid() && Snapshot() == Tick(old(Snapshot()), now, c, h)
    {
      TickKeeps(Snapshot(), now, c, h);
      if active.None? {
        ClaimKnock(now, c, h);
        return;
      }
      if !delivered {
        DeliverActiveKnock(now, c.idle, c, h);
        return;
      }
      var overdue := IsOverdue(now);
      if overdue {
        FailActiveKnock(h);
      } else {
        SettleObservedTurn(h);
        InterruptActiveTurn(c, h);
      }
    }

    method IsOverdue(now: int) returns (overdue: bool)
      ensures overdue == Overdue(Snapshot(), now)
    {
      if !startSettled && deliveredAt.Some? && now - deliveredAt.value >= KNOCK_SETTLEMENT_TIMEOUT_MS {
        return true;
      }
      if !turnStarted && deliveredAt.Some? && now - deliveredAt.value >= KNOCK_START_TIMEOUT_MS {
        return true;
      }
      return turnEnded && turnEndedAt.Some? && now - turnEndedAt.value >= KNOCK_SETTLEMENT_TIMEOUT_MS;
    }

    method NoteTurnStart(knock: Knock, h: Host)
      requires Valid()
      modifies this
      ensures Valid() && Snapshot() == TurnStart(old(Snapshot()), knock, h)
    {
      TurnStartKeeps(Snapshot(), knock, h);
      if active != Some(knock) || !delivered || turnStarted {
        return;
      }
      MarkTurnBegan(knock);
      SettleObservedTurn(h);
    }

    method MarkTurnBegan(knock: Knock)
      modifies `turnStarted, `trace
      ensures Snapshot() == Note(old(Snapshot()).(turnStarted := true), Began(knock, true))
    {
      turnStarted := true;
      trace := trace + [Began(knock, true)];
    }

    method NoteTurnEnd(now: int, h: Host)
      requires Valid()
      modifies this
      ensures Valid() && Snapshot() == TurnEnd(old(Snapshot()), now, h)
    {
      TurnEndKeeps(Snapshot(), now, h);
      if active.None? {
        return;
      }
      if !turnStarted && interruptSent && !interruptedTurnEnded {
        interruptedTurnEnded := true;
        trace := trace + [Consumed(active.value)];
        return;
      }
      MarkTurnEnded(now);
      SettleObservedTurn(h);
    }

    method MarkTurnEnded(now: int)
      requires active.Some?
      modifies `turnStarted, `turnEnded, `turnEndedAt, `trace
      ensures Snapshot() == MarkEnded(old(Snapshot()), now)
    {
      if !turnStarted {
        turnStarted := true;
        trace := trace + [Began(active.value, false)];
      }
      turnEnded, turnEndedAt := true, Some(now);
      trace := trace + [Ended(active.value)];
    }
  }
}
