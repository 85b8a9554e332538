/** The memo of context additions per turn, and the bounded write-through cache of memos per session.

    A session's get, change and persist are one step, and persisting succeeds. */
module TurnMemo {
  import opened Basics
  import opened InsertionOrder

  const MAX_SESSIONS := 128

  type Turn = string
  type Session = string

  /** The `customType` of an addition. */
  type Kind = string

  const RETIRED := "solarisael-"
  const CURRENT := "athanor-"

  /** The four context types that are injected once per memo. */
  predicate IsStable(kind: Kind) {
    || kind == "athanor-room-context" || kind == "athanor-routing-mode"
    || kind == "athanor-wake-context" || kind == "athanor-anamnesis-wake"
  }

  predicate IsLegacy(kind: Kind) {
    RETIRED <= kind
  }

  datatype Addition = Addition(kind: Kind, payload: string)

  type Memo = map<Turn, seq<Addition>>

  // ---------------------------------------------------------------- one memo

  predicate Holds(additions: seq<Addition>, kind: Kind) {
    exists i :: 0 <= i < |additions| && additions[i].kind == kind
  }

  predicate MemoHas(memo: Memo, kind: Kind) {
    exists t :: t in memo && Holds(memo[t], kind)
  }

  function Prune(memo: Memo, visible: set<Turn>): Memo {
    map t | t in memo && t in visible :: memo[t]
  }

  function Without(additions: seq<Addition>, kind: Kind): seq<Addition> {
    if additions == [] then []
    else if Last(additions).kind == kind then Without(Front(additions), kind)
    else Without(Front(additions), kind) + [Last(additions)]
  }

  function RemoveKind(memo: Memo, kind: Kind): Memo {
    map t | t in memo :: Without(memo[t], kind)
  }

  /** The additions worth keeping for this turn: a stable context type already somewhere in the memo is
      not repeated. */
  function Kept(memo: Memo, additions: seq<Addition>): seq<Addition> {
    if additions == [] then []
    else if IsStable(Last(additions).kind) && MemoHas(memo, Last(additions).kind) then Kept(memo, Front(additions))
    else Kept(memo, Front(additions)) + [Last(additions)]
  }

  function Merge(memo: Memo, turn: Turn, additions: seq<Addition>): Memo {
    memo[turn := Kept(memo, additions)]
  }

  // ---------------------------------------------------------------- what merging keeps

  ghost predicate DistinctStable(additions: seq<Addition>) {
    forall i, j :: 0 <= i < j < |additions| && IsStable(additions[i].kind) ==> additions[i].kind != additions[j].kind
  }

  /** Every stable context type stands in at most one place of the memo. */
  ghost predicate StableOnce(memo: Memo) {
    && (forall t :: t in memo ==> DistinctStable(memo[t]))
    && (forall t, u, kind: Kind ::
          t in memo && u in memo && IsStable(kind) && Holds(memo[t], kind) && Holds(memo[u], kind) ==> t == u)
  }

  lemma {:induction false} KeptHolds(memo: Memo, additions: seq<Addition>, kind: Kind)
    ensures Holds(Kept(memo, additions), kind)
            <==> Holds(additions, kind) && !(IsStable(kind) && MemoHas(memo, kind))
  {
    if additions != [] {
      KeptHolds(memo, Front(additions), kind);
      var kept, f := Kept(memo, additions), Front(additions);
      assert forall i :: 0 <= i < |f| ==> additions[i] == f[i];
      HoldsSnoc(f, Last(additions), kind);
      HoldsSnoc(Kept(memo, f), Last(additions), kind);
      assert additions == f + [Last(additions)];
    }
  }

  lemma HoldsSnoc(additions: seq<Addition>, a: Addition, kind: Kind)
    ensures Holds(additions + [a], kind) <==> Holds(additions, kind) || a.kind == kind
  {
    var all := additions + [a];
    assert all[|additions|] == a;
    assert forall i :: 0 <= i < |additions| ==> all[i] == additions[i];
  }

  lemma {:induction false} KeptDistinct(memo: Memo, additions: seq<Addition>)
    requires DistinctStable(additions)
    ensures DistinctStable(Kept(memo, additions))
  {
    if additions != [] {
      var f, a := Front(additions), Last(additions);
      KeptDistinct(memo, f);
      assert forall i :: 0 <= i < |f| ==> f[i] == additions[i];
      KeptHolds(memo, f, a.kind);
    }
  }

  /** A merge leaves every other turn alone, and keeps each stable type in at most one place when the
      turn's own additions do. */
  lemma MergeKeepsStableOnce(memo: Memo, turn: Turn, additions: seq<Addition>)
    requires StableOnce(memo) && DistinctStable(additions)
    ensures StableOnce(Merge(memo, turn, additions))
    ensures forall t :: t in memo && t != turn ==> Merge(memo, turn, additions)[t] == memo[t]
  {
    KeptDistinct(memo, additions);
    forall kind: Kind { KeptHolds(memo, additions, kind); }
  }

  /** A stable type offered to a turn is in the memo afterwards unless its only place was the entry
      this very merge replaces: then it is dropped. */
  lemma MergeKeepsOffered(memo: Memo, turn: Turn, additions: seq<Addition>, kind: Kind)
    requires IsStable(kind) && Holds(additions, kind)
    ensures MemoHas(Merge(memo, turn, additions), kind)
            <==> MemoHas(memo - {turn}, kind) || !MemoHas(memo, kind)
  {
    KeptHolds(memo, additions, kind);
    var merged, others := Merge(memo, turn, additions), memo - {turn};
    assert forall t :: t in others ==> merged[t] == others[t] == memo[t];
    assert merged[turn] == Kept(memo, additions);
    if t :| t in merged && Holds(merged[t], kind) {
      assert t != turn ==> t in others;
    }
    if t :| t in others && Holds(others[t], kind) {
      assert t in memo && Holds(memo[t], kind) && Holds(merged[t], kind);
    }
  }

  // ---------------------------------------------------------------- what a change leaves, addition by addition

  /** `some` are the additions of `all` at these places, in order. */
  ghost predicate Picked(all: seq<Addition>, some: seq<Addition>, at: seq<nat>) {
    && |at| == |some| && (forall i, j :: 0 <= i < j < |at| ==> at[i] < at[j])
    && forall i :: 0 <= i < |at| ==> at[i] < |all| && some[i] == all[at[i]]
  }

  lemma PickedNone(all: seq<Addition>, a: Addition, some: seq<Addition>, at: seq<nat>)
    requires Picked(all, some, at)
    ensures Picked(all + [a], some, at) && |all| !in at
  {
  }

  lemma PickedOne(all: seq<Addition>, a: Addition, some: seq<Addition>, at: seq<nat>)
    requires Picked(all, some, at)
    ensures Picked(all + [a], some + [a], at + [|all|])
  {
  }

  /** What stays of the additions, as they are and in order: exactly those not of this kind. */
  ghost predicate AllBut(all: seq<Addition>, some: seq<Addition>, kind: Kind, at: seq<nat>) {
    Picked(all, some, at) && forall j: nat :: j < |all| ==> (j in at <==> all[j].kind != kind)
  }

  /** The additions that are not of the four stable types or are new to the memo, as they are and in order. */
  ghost predicate WorthKeeping(memo: Memo, all: seq<Addition>, some: seq<Addition>, at: seq<nat>) {
    && Picked(all, some, at)
    && forall j: nat :: j < |all| ==>
         (j in at <==> !(MemoHas(memo, all[j].kind)
                         && all[j].kind in {"athanor-room-context", "athanor-routing-mode", "athanor-wake-context",
                                            "athanor-anamnesis-wake"}))
  }

  /** Removing leaves exactly the additions of other kinds. */
  lemma {:induction false} WithoutIsExact(additions: seq<Addition>, kind: Kind) returns (at: seq<nat>)
    ensures AllBut(additions, Without(additions, kind), kind, at)
  {
    at := [];
    if additions != [] {
      var f, a := Front(additions), Last(additions);
      at := WithoutIsExact(f, kind);
      assert additions == f + [a] && forall j: nat :: j < |f| ==> additions[j] == f[j];
      PickedNone(f, a, Without(f, kind), at);
      if a.kind != kind {
        PickedOne(f, a, Without(f, kind), at);
        at := at + [|f|];
      }
    }
  }

  /** A merge keeps exactly the additions worth keeping. */
  lemma {:induction false} KeptIsExact(memo: Memo, additions: seq<Addition>) returns (at: seq<nat>)
    ensures WorthKeeping(memo, additions, Kept(memo, additions), at)
  {
    at := [];
    if additions != [] {
      var f, a := Front(additions), Last(additions);
      at := KeptIsExact(memo, f);
      assert additions == f + [a] && forall j: nat :: j < |f| ==> additions[j] == f[j];
      PickedNone(f, a, Kept(memo, f), at);
      if !(IsStable(a.kind) && MemoHas(memo, a.kind)) {
        PickedOne(f, a, Kept(memo, f), at);
        at := at + [|f|];
      }
    }
  }

  /** What a change leaves of each turn: pruning exactly the entries of the visible turns; a merge all other
      entries, and of the additions those worth keeping; a removal every entry without that kind. */
  lemma ChangeIsExact(memo: Memo, change: Change)
    ensures var after := Apply(change, memo);
            match change
            case Pruning(visible) =>
              after.Keys == memo.Keys * visible && forall t :: t in after ==> after[t] == memo[t]
            case Merging(turn, additions) =>
              && after.Keys == memo.Keys + {turn} && (forall t :: t in memo && t != turn ==> after[t] == memo[t])
              && exists at :: WorthKeeping(memo, additions, after[turn], at)
            case Removing(kind) =>
              after.Keys == memo.Keys && forall t :: t in memo ==> exists at :: AllBut(memo[t], after[t], kind, at)
  {
    match change
    case Pruning(_) =>
    case Merging(_, additions) =>
      var at := KeptIsExact(memo, additions);
    case Removing(kind) =>
      forall t | t in memo ensures exists at :: AllBut(memo[t], Without(memo[t], kind), kind, at) {
        var at := WithoutIsExact(memo[t], kind);
      }
  }

  // ---------------------------------------------------------------- loading

  function Rename(kind: Kind): Kind {
    if IsLegacy(kind) then CURRENT + kind[|RETIRED|..] else kind
  }

  function RenameAll(additions: seq<Addition>): seq<Addition> {
    seq(|additions|, i requires 0 <= i < |additions| => additions[i].(kind := Rename(additions[i].kind)))
  }

  /** What a memo read back from disk looks like: retired names are rewritten. */
  function Hydrated(memo: Memo): Memo {
    map t | t in memo :: RenameAll(memo[t])
  }

  predicate Modern(memo: Memo) {
    forall t :: t in memo ==> forall i :: 0 <= i < |memo[t]| ==> !IsLegacy(memo[t][i].kind)
  }

  lemma HydratedIsModern(memo: Memo)
    ensures Modern(Hydrated(memo))
  {
    forall t, i | t in memo && 0 <= i < |memo[t]| ensures !IsLegacy(Hydrated(memo)[t][i].kind) {
      RenamedIsCurrent(memo[t][i].kind);
    }
  }

  /** A rewritten name is no retired name, and differs from it. */
  lemma RenamedIsCurrent(kind: Kind)
    ensures !IsLegacy(Rename(kind)) && (Rename(kind) == kind <==> !IsLegacy(kind))
  {
    assert RETIRED[0] == 's' && CURRENT[0] == 'a';
    if IsLegacy(kind) {
      assert Rename(kind)[0] == 'a' && kind[0] == 's';
    }
  }

  /** What reading back makes of each addition: a name that begins with "solarisael-" begins with "athanor-"
      instead; everything else is as it was written. */
  lemma ReadBackRenames(memo: Memo, t: Turn, i: nat)
    requires t in memo && i < |memo[t]|
    ensures Hydrated(memo).Keys == memo.Keys && |Hydrated(memo)[t]| == |memo[t]|
    ensures var was, now := memo[t][i], Hydrated(memo)[t][i];
            && now.payload == was.payload
            && now.kind == if "solarisael-" <= was.kind then "athanor-" + was.kind[11..] else was.kind
  {
    assert |RETIRED| == 11;
  }

  /** Reading back is exact if and only if the memo holds no retired name. */
  lemma ReadBackIsExact(memo: Memo)
    ensures Hydrated(memo) == memo <==> Modern(memo)
  {
    if Modern(memo) {
      forall t | t in memo ensures RenameAll(memo[t]) == memo[t] {
      }
    } else {
      var t, i :| t in memo && 0 <= i < |memo[t]| && IsLegacy(memo[t][i].kind);
      RenamedIsCurrent(memo[t][i].kind);
      assert RenameAll(memo[t])[i] != memo[t][i];
    }
  }

  // ---------------------------------------------------------------- the cache

  datatype State = State(cache: seq<Pair<Session, Memo>>, disk: map<Session, Memo>)

  datatype Change =
    | Pruning(visible: set<Turn>)
    | Merging(turn: Turn, additions: seq<Addition>)
    | Removing(kind: Kind)

  function Apply(change: Change, memo: Memo): Memo {
    match change
    case Pruning(visible) => Prune(memo, visible)
    case Merging(turn, additions) => Merge(memo, turn, additions)
    case Removing(kind) => RemoveKind(memo, kind)
  }

  function OnDisk(disk: map<Session, Memo>, session: Session): Memo {
    if session in disk then Hydrated(disk[session]) else map[]
  }

  /** `turnAdditionMemo`: the session goes to the end of the order; a new one may push out the oldest. */
  function Touch(s: State, session: Session): State {
    match Lookup(s.cache, session)
    case Some(memo) => s.(cache := Put(Delete(s.cache, session), session, memo))
    case None =>
      var grown := Put(s.cache, session, OnDisk(s.disk, session));
      s.(cache := if |grown| > MAX_SESSIONS then grown[1..] else grown)
  }

  /** What the session's next access will be given. */
  function Read(s: State, session: Session): Memo {
    match Lookup(s.cache, session)
    case Some(memo) => memo
    case None => OnDisk(s.disk, session)
  }

  /** Get, change and persist. */
  function Access(s: State, session: Session, change: Change): State {
    var t := Touch(s, session);
    var memo := Apply(change, Read(s, session));
    State(Put(t.cache, session, memo), t.disk[session := memo])
  }

  // ---------------------------------------------------------------- the cache is no cache

  ghost predicate Coherent(s: State) {
    forall session :: Lookup(s.cache, session).Some? ==>
      session in s.disk && s.disk[session] == Lookup(s.cache, session).value && Modern(s.disk[session])
  }

  ghost predicate Inv(s: State) {
    Distinct(s.cache) && |s.cache| <= MAX_SESSIONS && Coherent(s)
  }

  predicate ModernChange(change: Change) {
    change.Merging? ==> forall i :: 0 <= i < |change.additions| ==> !IsLegacy(change.additions[i].kind)
  }

  lemma {:induction false} WithoutModern(additions: seq<Addition>, kind: Kind)
    requires forall i :: 0 <= i < |additions| ==> !IsLegacy(additions[i].kind)
    ensures forall i :: 0 <= i < |Without(additions, kind)| ==> !IsLegacy(Without(additions, kind)[i].kind)
  {
    if additions != [] {
      WithoutModern(Front(additions), kind);
    }
  }

  lemma {:induction false} KeptModern(memo: Memo, additions: seq<Addition>)
    requires forall i :: 0 <= i < |additions| ==> !IsLegacy(additions[i].kind)
    ensures forall i :: 0 <= i < |Kept(memo, additions)| ==> !IsLegacy(Kept(memo, additions)[i].kind)
  {
    if additions != [] {
      KeptModern(memo, Front(additions));
    }
  }

  lemma ChangeKeepsModern(change: Change, memo: Memo)
    requires Modern(memo) && ModernChange(change)
    ensures Modern(Apply(change, memo))
  {
    match change
    case Pruning(_) =>
    case Merging(_, additions) => KeptModern(memo, additions);
    case Removing(kind) =>
      forall t | t in memo { WithoutModern(memo[t], kind); }
  }

  lemma ReadIsModern(s: State, session: Session)
    requires Inv(s)
    ensures Modern(Read(s, session))
  {
    if Lookup(s.cache, session).None? && session in s.disk {
      HydratedIsModern(s.disk[session]);
    }
  }

  /** The session that a touch of another drops: the first of a full cache, for one not cached. */
  predicate Dropped(s: State, session: Session, other: Session) {
    |s.cache| == MAX_SESSIONS && Lookup(s.cache, session).None? && s.cache[0].key == other
  }

  /** Touching gives the session's memo out and keeps every other one cached, but for the first of a full
      cache when the session was not cached. */
  lemma TouchKeeps(s: State, session: Session, other: Session)
    requires Inv(s)
    ensures var t := Touch(s, session);
            && Distinct(t.cache) && |t.cache| <= MAX_SESSIONS
            && Lookup(t.cache, session) == Some(Read(s, session))
            && (other != session ==>
                  Lookup(t.cache, other) == if Dropped(s, session, other) then None else Lookup(s.cache, other))
  {
    var found := Lookup(s.cache, session);
    if found.Some? {
      DeleteDistinct(s.cache, session);
      LookupDelete(s.cache, session, other);
      LookupDelete(s.cache, session, session);
      PutDistinct(Delete(s.cache, session), session, found.value);
      LookupPut(Delete(s.cache, session), session, found.value, other);
      LookupPut(Delete(s.cache, session), session, found.value, session);
    } else {
      var memo := OnDisk(s.disk, session);
      PutDistinct(s.cache, session, memo);
      LookupPut(s.cache, session, memo, other);
      LookupPut(s.cache, session, memo, session);
      PutLast(s.cache, session, memo);
      OldestGone(Put(s.cache, session, memo), other);
      OldestGone(Put(s.cache, session, memo), session);
    }
  }

  lemma {:induction false} PutLast(cache: seq<Pair<Session, Memo>>, session: Session, memo: Memo)
    requires Lookup(cache, session).None?
    ensures Put(cache, session, memo) == cache + [Pair(session, memo)]
  {
    if cache != [] {
      PutLast(cache[1..], session, memo);
      assert cache + [Pair(session, memo)] == [cache[0]] + (cache[1..] + [Pair(session, memo)]);
    }
  }

  lemma OldestGone(cache: seq<Pair<Session, Memo>>, session: Session)
    requires Distinct(cache) && cache != []
    ensures Lookup(cache[1..], session) == if cache[0].key == session then None else Lookup(cache, session)
  {
  }

  lemma AccessKeeps(s: State, session: Session, change: Change)
    requires Inv(s) && ModernChange(change)
    ensures Inv(Access(s, session, change))
  {
    var t, memo := Touch(s, session), Apply(change, Read(s, session));
    ReadIsModern(s, session);
    ChangeKeepsModern(change, Read(s, session));
    forall k ensures Lookup(Put(t.cache, session, memo), k) == if k == session then Some(memo) else Lookup(t.cache, k) {
      LookupPut(t.cache, session, memo, k);
    }
    forall k | k != session ensures Lookup(t.cache, k).None? || Lookup(t.cache, k) == Lookup(s.cache, k) {
      TouchKeeps(s, session, k);
    }
    TouchKeeps(s, session, session);
    PutDistinct(t.cache, session, memo);
    LookupPut(t.cache, session, memo, session);
  }

  /** One step of the cache is one step of an unbounded map of memos: the session reads what the change
      made of what it read before, and every other session reads what it read before. */
  lemma AccessRefines(s: State, session: Session, change: Change, other: Session)
    requires Inv(s) && ModernChange(change)
    ensures Inv(Access(s, session, change))
    ensures Read(Access(s, session, change), other)
         == if other == session then Apply(change, Read(s, session)) else Read(s, other)
    ensures Lookup(Access(s, session, change).cache, session).Some?
  {
    var t, memo := Touch(s, session), Apply(change, Read(s, session));
    AccessKeeps(s, session, change);
    LookupPut(t.cache, session, memo, other);
    LookupPut(t.cache, session, memo, session);
    TouchKeeps(s, session, other);
    if Lookup(s.cache, other).Some? { ReadBackIsExact(s.disk[other]); }
  }

  // ---------------------------------------------------------------- every history

  datatype Event = Event(session: Session, change: Change)

  function Run(disk: map<Session, Memo>, events: seq<Event>): State {
    if events == [] then State([], disk)
    else Access(Run(disk, Front(events)), Last(events).session, Last(events).change)
  }

  /** The reference: one memo per session, no bound, no disk. */
  function Reference(disk: map<Session, Memo>, events: seq<Event>, session: Session): Memo {
    if events == [] then OnDisk(disk, session)
    else
      var before := Reference(disk, Front(events), session);
      if Last(events).session == session then Apply(Last(events).change, before) else before
  }

  /** Over every history the cache reads like the reference and holds at most 128 memos. */
  lemma {:induction false} CacheIsTransparent(disk: map<Session, Memo>, events: seq<Event>, session: Session)
    requires forall k :: 0 <= k < |events| ==> ModernChange(events[k].change)
    ensures Inv(Run(disk, events)) && |Run(disk, events).cache| <= 128
    ensures Read(Run(disk, events), session) == Reference(disk, events, session)
  {
    if events != [] {
      assert Last(events) == events[|events| - 1];
      CacheIsTransparent(disk, Front(events), session);
      CacheIsTransparent(disk, Front(events), Last(events).session);
      AccessRefines(Run(disk, Front(events)), Last(events).session, Last(events).change, session);
    }
  }

  /** A memo that is pushed out and read back is the same one if and only if it holds no retired name:
      what the condition on the additions is for. */
  lemma EvictionRespells(s: State, session: Session)
    requires Distinct(s.cache) && s.cache != [] && s.cache[0].key == session
    requires session in s.disk && s.disk[session] == s.cache[0].value
    ensures Read(s.(cache := s.cache[1..]), session) == Read(s, session) <==> Modern(s.cache[0].value)
  {
    OldestGone(s.cache, session);
    ReadBackIsExact(s.disk[session]);
  }
}
