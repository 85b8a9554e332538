/** The memo cache itself, updated in place, and the loops that change one memo. */
module TurnMemoCacheClass {
  import opened Basics
  import opened InsertionOrder
  import opened TurnMemo

  class TurnMemoCache {
    var memos: seq<Pair<Session, Memo>>
    var disk: map<Session, Memo>

    ghost function Snapshot(): State
      reads this
    {
      State(memos, disk)
    }

    ghost predicate Valid()
      reads this
    {
      Inv(Snapshot())
    }

    constructor (disk: map<Session, Memo>)
      ensures Valid() && memos == [] && this.disk == disk
    {
      memos := [];
      this.disk := disk;
    }

    method TurnAdditionMemo(session: Session) returns (memo: Memo)
      modifies `memos
      ensures memo == Read(old(Snapshot()), session) && Snapshot() == Touch(old(Snapshot()), session)
    {
      var existing := Lookup(memos, session);
      if existing.Some? {
        memos := Delete(memos, session);
        memos := Put(memos, session, existing.value);
        return existing.value;
      }
      memo := OnDisk(disk, session);
      memos := Put(memos, session, memo);
      if |memos| > MAX_SESSIONS {
        memos := memos[1..];
      }
    }

    /** One session's get, change and persist. */
    method Change(session: Session, change: Change)
      requires Valid() && ModernChange(change)
      modifies this
      ensures Valid() && Snapshot() == Access(old(Snapshot()), session, change)
    {
      AccessRefines(Snapshot(), session, change, session);
      var memo := TurnAdditionMemo(session);
      match change {
        case Pruning(visible) => memo := PruneTurnAdditionMemo(memo, visible);
        case Merging(turn, additions) => memo := MergeTurnAdditions(memo, turn, additions);
        case Removing(kind) => memo := RemoveMemoCustomType(memo, kind);
      }
      memos := Put(memos, session, memo);
      disk := disk[session := memo];
    }
  }

  method PruneTurnAdditionMemo(memo: Memo, visible: set<Turn>) returns (pruned: Memo)
    ensures pruned == Prune(memo, visible)
  {
    pruned := memo;
    var left := memo.Keys;
    while left != {}
      invariant left <= memo.Keys
      invariant forall t :: t in pruned <==> t in memo && (t in left || t in visible)
      invariant forall t :: t in pruned ==> pruned[t] == memo[t]
    {
      var key :| key in left;
      if key !in visible {
        pruned := pruned - {key};
      }
      left := left - {key};
    }
  }

  method MergeTurnAdditions(memo: Memo, turn: Turn, additions: seq<Addition>) returns (merged: Memo)
    ensures merged == Merge(memo, turn, additions)
  {
    var current := [];
    var i := 0;
    while i < |additions|
      invariant i <= |additions| && current == Kept(memo, additions[..i])
    {
      assert additions[..i + 1] == additions[..i] + [additions[i]];
      Snoc(additions[..i], additions[i]);
      if !(IsStable(additions[i].kind) && MemoHas(memo, additions[i].kind)) {
        current := current + [additions[i]];
      }
      i := i + 1;
    }
    assert additions[..i] == additions;
    merged := memo[turn := current];
  }

  method RemoveMemoCustomType(memo: Memo, kind: Kind) returns (removed: Memo)
    ensures removed == RemoveKind(memo, kind)
  {
    removed := memo;
    var left := memo.Keys;
    while left != {}
      invariant left <= memo.Keys && removed.Keys == memo.Keys
      invariant forall t :: t in memo ==> removed[t] == if t in left then memo[t] else Without(memo[t], kind)
    {
      var key :| key in left;
      removed := removed[key := Without(memo[key], kind)];
      left := left - {key};
    }
  }
}
