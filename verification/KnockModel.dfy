/** The hallway-knock doorman as a value.  Each Host call is one atomic step, so a handler runs to its
    end with the Host's answers given; `trace` records what the doorman and its session did. */
module KnockModel {
  import opened Basics

  const KNOCK_START_TIMEOUT_MS := 60_000
  const KNOCK_SETTLEMENT_TIMEOUT_MS := 25_000
  const KNOCK_CLAIM_BACKOFF_BASE_MS := 5_000
  const KNOCK_CLAIM_BACKOFF_MAX_MS := 60_000

  type Knock = string

  datatype Outcome = Started | Completed | Failed

  /** Marks: the session began a turn for the open knock, as seen or as inferred from its end; ended it;
      or ended the turn that was interrupted for it. */
  datatype Entry =
    | Claimed(knock: Knock)
    | Delivered(knock: Knock)
    | Settling(knock: Knock, outcome: Outcome, acked: bool)
    | Interrupted(knock: Knock)
    | Began(knock: Knock, seen: bool)
    | Ended(knock: Knock)
    | Consumed(knock: Knock)

  datatype State = State(
    active: Option<Knock>,
    delivered: bool,
    deliveredAt: Option<int>,
    turnStarted: bool,
    startSettled: bool,
    turnEnded: bool,
    turnEndedAt: Option<int>,
    interruptRequested: bool,
    interruptSent: bool,
    interruptedTurnEnded: bool,
    claimFailures: nat,
    nextClaimAt: int,
    trace: seq<Entry>)

  const INITIAL := State(None, false, None, false, false, false, None, false, false, false, 0, 0, [])

  /** The session: whether it is idle before and after the claim, and what its adapter can do. */
  datatype Session = Session(idle: bool, idleLater: bool, canAbort: bool, abortThrows: bool, sendThrows: bool)

  datatype Claim = ClaimFails | NoKnock | Granted(knock: Knock)

  datatype Host = Host(claim: Claim, started: bool, completed: bool, failed: bool)

  function Note(s: State, e: Entry): State {
    s.(trace := s.trace + [e])
  }

  function Clear(s: State): State {
    s.(active := None, delivered := false, deliveredAt := None, turnStarted := false, startSettled := false,
       turnEnded := false, turnEndedAt := None, interruptRequested := false, interruptSent := false,
       interruptedTurnEnded := false)
  }

  function FailActive(s: State, h: Host): State {
    if s.active.None? then s else Clear(Note(s, Settling(s.active.value, Failed, h.failed)))
  }

  function InterruptActive(s: State, c: Session, h: Host): State {
    if s.active.None? || !s.interruptRequested || s.interruptSent || !s.startSettled then s
    else if !c.canAbort || c.abortThrows then FailActive(s, h)
    else Note(s.(interruptSent := true), Interrupted(s.active.value))
  }

  function SettleStart(s: State, h: Host): State
    requires s.active.Some?
  {
    if s.startSettled then s
    else Note(s.(startSettled := h.started), Settling(s.active.value, Started, h.started))
  }

  function SettleObserved(s: State, h: Host): State {
    if s.active.None? then s
    else
      var t := SettleStart(s, h);
      if !t.startSettled || !t.turnStarted || !t.turnEnded then t
      else
        var u := Note(t, Settling(t.active.value, Completed, h.completed));
        if h.completed then Clear(u) else u
  }

  function HandOver(s: State, now: int, idle: bool): State
    requires s.active.Some?
  {
    Note(s.(delivered := true, deliveredAt := Some(now), turnStarted := false, startSettled := false,
            turnEnded := false, interruptRequested := !idle, interruptSent := false, interruptedTurnEnded := false),
         Delivered(s.active.value))
  }

  function DeliverActive(s: State, now: int, idle: bool, c: Session, h: Host): State {
    if s.active.None? || s.delivered then s
    else if !idle && !c.canAbort then s
    else if c.sendThrows then FailActive(s, h)
    else InterruptActive(SettleObserved(HandOver(s, now, idle), h), c, h)
  }

  predicate Since(at: Option<int>, now: int, span: int) {
    at.Some? && now - at.value >= span
  }

  /** The three deadlines of a delivered knock. */
  predicate Overdue(s: State, now: int) {
    || (!s.startSettled && Since(s.deliveredAt, now, KNOCK_SETTLEMENT_TIMEOUT_MS))
    || (!s.turnStarted && Since(s.deliveredAt, now, KNOCK_START_TIMEOUT_MS))
    || (s.turnEnded && Since(s.turnEndedAt, now, KNOCK_SETTLEMENT_TIMEOUT_MS))
  }

  function Pow2(n: nat): nat {
    if n == 0 then 1 else 2 * Pow2(n - 1)
  }

  function Backoff(failures: nat): int {
    var exponent := if failures == 0 then 0 else if failures - 1 < 6 then failures - 1 else 6;
    var wait := KNOCK_CLAIM_BACKOFF_BASE_MS * Pow2(exponent);
    if wait < KNOCK_CLAIM_BACKOFF_MAX_MS then wait else KNOCK_CLAIM_BACKOFF_MAX_MS
  }

  function ClaimNext(s: State, now: int, c: Session, h: Host): State {
    if now < s.nextClaimAt || (!c.idle && !c.canAbort) then s
    else
      match h.claim
      case ClaimFails =>
        s.(claimFailures := s.claimFailures + 1, nextClaimAt := now + Backoff(s.claimFailures + 1))
      case NoKnock => s.(claimFailures := 0, nextClaimAt := 0)
      case Granted(k) =>
        var t := Note(Clear(s.(claimFailures := 0, nextClaimAt := 0)).(active := Some(k)), Claimed(k));
        DeliverActive(t, now, c.idleLater, c, h)
  }

  function Tick(s: State, now: int, c: Session, h: Host): State {
    if s.active.None? then ClaimNext(s, now, c, h)
    else if !s.delivered then DeliverActive(s, now, c.idle, c, h)
    else if Overdue(s, now) then FailActive(s, h)
    else InterruptActive(SettleObserved(s, h), c, h)
  }

  function TurnStart(s: State, knock: Knock, h: Host): State {
    if s.active != Some(knock) || !s.delivered || s.turnStarted then s
    else SettleObserved(Note(s.(turnStarted := true), Began(knock, true)), h)
  }

  function MarkEnded(s: State, now: int): State
    requires s.active.Some?
  {
    var began := if s.turnStarted then s else Note(s.(turnStarted := true), Began(s.active.value, false));
    Note(began.(turnEnded := true, turnEndedAt := Some(now)), Ended(s.active.value))
  }

  function TurnEnd(s: State, now: int, h: Host): State {
    if s.active.None? then s
    else if !s.turnStarted && s.interruptSent && !s.interruptedTurnEnded then
      Note(s.(interruptedTurnEnded := true), Consumed(s.active.value))
    else SettleObserved(MarkEnded(s, now), h)
  }

  datatype Event =
    | EvTick(now: int, session: Session, host: Host)
    | EvTurnStart(knock: Knock, host: Host)
    | EvTurnEnd(now: int, host: Host)
    | EvRetired(host: Host)

  function Step(s: State, e: Event): State {
    match e
    case EvTick(now, c, h) => Tick(s, now, c, h)
    case EvTurnStart(knock, h) => TurnStart(s, knock, h)
    case EvTurnEnd(now, h) => TurnEnd(s, now, h)
    case EvRetired(h) => FailActive(s, h)
  }

  function Run(events: seq<Event>): State {
    if events == [] then INITIAL else Step(Run(Front(events)), Last(events))
  }
}
