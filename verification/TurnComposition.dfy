/** The composition of one turn's context around its awaits: whether the turn has its additions already
    is asked when a composition begins, and they are merged when it ends. */
module TurnComposition {
  import opened Basics
  import opened TurnMemo

  /** One session's memo and the turns whose composition is under way, in the order they began. */
  datatype Work = Work(memo: Memo, composing: seq<Turn>)

  datatype Event =
    | Begin(visible: set<Turn>, turn: Turn)
    | Finish(i: nat, additions: seq<Addition>)
    | Compact(kind: Kind)

  /** A turn that has its entry is replayed, and no composition begins. */
  function Begins(s: Work, visible: set<Turn>, turn: Turn): Work {
    var memo := Prune(s.memo, visible);
    Work(memo, if turn in memo then s.composing else s.composing + [turn])
  }

  function Finishes(s: Work, i: nat, additions: seq<Addition>): Work {
    if i >= |s.composing| then s
    else Work(Merge(s.memo, s.composing[i], additions), s.composing[..i] + s.composing[i + 1..])
  }

  function Step(s: Work, e: Event): Work {
    match e
    case Begin(visible, turn) => Begins(s, visible, turn)
    case Finish(i, additions) => Finishes(s, i, additions)
    case Compact(kind) => s.(memo := RemoveKind(s.memo, kind))
  }

  function Run(memo: Memo, events: seq<Event>): Work {
    if events == [] then Work(memo, []) else Step(Run(memo, Front(events)), Last(events))
  }

  // ---------------------------------------------------------------- one composition of a turn at a time

  /** A composition of the turn begins while another one is under way. */
  predicate Overlaps(s: Work, e: Event) {
    e.Begin? && e.turn in s.composing
  }

  ghost predicate Serial(memo: Memo, events: seq<Event>) {
    forall j :: 0 <= j < |events| ==> !Overlaps(Run(memo, events[..j]), events[j])
  }

  /** No turn is composed twice, and none that has its entry is composed. */
  ghost predicate Inv(s: Work) {
    NoDuplicates(s.composing) && forall t :: t in s.composing ==> t !in s.memo
  }

  lemma StepKeeps(s: Work, e: Event)
    requires Inv(s) && !Overlaps(s, e)
    ensures Inv(Step(s, e))
  {
    match e
    case Begin(visible, turn) =>
    case Finish(i, additions) =>
      if i < |s.composing| { assert s.composing[i] !in Step(s, e).composing; }
    case Compact(kind) =>
  }

  lemma {:induction false} RunKeeps(memo: Memo, events: seq<Event>)
    requires Serial(memo, events)
    ensures Inv(Run(memo, events))
  {
    if events != [] {
      var f := Front(events);
      assert forall j :: 0 <= j < |f| ==> f[..j] == events[..j] && f[j] == events[j];
      RunKeeps(memo, f);
      assert events[..|f|] == f && !Overlaps(Run(memo, f), Last(events));
      StepKeeps(Run(memo, f), Last(events));
    }
  }

  /** A turn's context is composed exactly when, of the visible turns, it has no entry; turns no longer visible
      are forgotten first. */
  lemma ComposesIff(s: Work, visible: set<Turn>, turn: Turn)
    ensures var t := Step(s, Begin(visible, turn));
            && t.memo.Keys == s.memo.Keys * visible && (forall u :: u in t.memo ==> t.memo[u] == s.memo[u])
            && t.composing == if turn in s.memo && turn in visible then s.composing else s.composing + [turn]
  {
  }

  /** Every stable type offered to the turn is in the memo once its composition has been merged. */
  ghost predicate KeepsOffered(s: Work, i: nat, additions: seq<Addition>)
    requires i < |s.composing|
  {
    forall kind :: IsStable(kind) && Holds(additions, kind) ==> MemoHas(Finishes(s, i, additions).memo, kind)
  }

  /** The turn has an entry, and the type stands nowhere else. */
  predicate OnlyInEntry(memo: Memo, turn: Turn, kind: Kind) {
    turn in memo && Holds(memo[turn], kind) && !MemoHas(memo - {turn}, kind)
  }

  /** The merge drops a type offered if and only if the turn has an entry by then, and that was the only
      place of the type. */
  lemma KeepsOfferedIff(s: Work, i: nat, additions: seq<Addition>)
    requires i < |s.composing|
    ensures KeepsOffered(s, i, additions)
            <==> forall kind :: IsStable(kind) && Holds(additions, kind) ==> !OnlyInEntry(s.memo, s.composing[i], kind)
  {
    var turn := s.composing[i];
    forall kind | IsStable(kind) && Holds(additions, kind)
      ensures MemoHas(Finishes(s, i, additions).memo, kind)
              <==> !OnlyInEntry(s.memo, turn, kind)
    {
      MergeKeepsOffered(s.memo, turn, additions, kind);
      OnlyPlace(s.memo, turn, kind);
    }
  }

  lemma OnlyPlace(memo: Memo, turn: Turn, kind: Kind)
    ensures MemoHas(memo, kind) <==> MemoHas(memo - {turn}, kind) || (turn in memo && Holds(memo[turn], kind))
  {
    var others := memo - {turn};
    assert forall t :: t in others ==> t in memo && others[t] == memo[t];
    if t :| t in memo && Holds(memo[t], kind) {
      assert t != turn ==> t in others && Holds(others[t], kind);
    }
  }

  /** While compositions of one turn never overlap, no merge drops a stable type it is offered. */
  lemma SerialKeepsOffered(memo: Memo, events: seq<Event>, j: nat)
    requires Serial(memo, events) && j < |events| && events[j].Finish?
    requires events[j].i < |Run(memo, events[..j]).composing|
    ensures KeepsOffered(Run(memo, events[..j]), events[j].i, events[j].additions)
  {
    assert forall m :: 0 <= m < j ==> events[..j][..m] == events[..m] && events[..j][m] == events[m];
    RunKeeps(memo, events[..j]);
    KeepsOfferedIff(Run(memo, events[..j]), events[j].i, events[j].additions);
  }

  const ROOM := [Addition("athanor-room-context", "room")]

  const OVERLAPPING := [Begin({"turn"}, "turn"), Begin({"turn"}, "turn"), Finish(0, ROOM), Finish(0, ROOM)]

  lemma RunAppend(memo: Memo, events: seq<Event>, e: Event)
    ensures Run(memo, events + [e]) == Step(Run(memo, events), e)
  {
    Snoc(events, e);
  }

  /** Two overlapping compositions of one turn: the first merge brings the room's context, the second
      takes it away. */
  lemma OverlapDropsContext()
    ensures MemoHas(Run(map[], OVERLAPPING[..3]).memo, "athanor-room-context")
    ensures !MemoHas(Run(map[], OVERLAPPING).memo, "athanor-room-context")
  {
    OverlappingRun();
    var once := Run(map[], OVERLAPPING[..3]).memo;
    assert ROOM[0].kind == "athanor-room-context" && Holds(ROOM, "athanor-room-context");
    assert !MemoHas(map[], "athanor-room-context");
    MergeKeepsOffered(map[], "turn", ROOM, "athanor-room-context");
    assert once - {"turn"} == map[];
    MergeKeepsOffered(once, "turn", ROOM, "athanor-room-context");
  }

  lemma OverlappingRun()
    ensures Run(map[], OVERLAPPING[..3]) == Work(Merge(map[], "turn", ROOM), ["turn"])
    ensures Run(map[], OVERLAPPING).memo == Merge(Run(map[], OVERLAPPING[..3]).memo, "turn", ROOM)
    ensures Run(map[], OVERLAPPING[..3]).memo.Keys == {"turn"}
  {
    var b, f := Begin({"turn"}, "turn"), Finish(0, ROOM);
    RunAppend(map[], [], b);
    RunAppend(map[], [b], b);
    RunAppend(map[], [b, b], f);
    RunAppend(map[], [b, b, f], f);
    assert [] + [b] == [b] && [b] + [b] == [b, b] && [b, b] + [f] == [b, b, f] == OVERLAPPING[..3];
    assert [b, b, f] + [f] == OVERLAPPING;
    assert Prune(map[], {"turn"}) == map[];
  }
}
