/** The memo cache keeps exactly the sessions used last, in the order they were used. */
module TurnMemoOrder {
  import opened Basics
  import opened InsertionOrder
  import opened TurnMemo

  function Minus(order: seq<Session>, session: Session): seq<Session> {
    if order == [] then [] else if order[0] == session then order[1..] else [order[0]] + Minus(order[1..], session)
  }

  /** The sessions of a history, each at the place of its latest use. */
  function Recent(events: seq<Event>): seq<Session> {
    if events == [] then [] else Minus(Recent(Front(events)), Last(events).session) + [Last(events).session]
  }

  function LastOnes(order: seq<Session>, n: nat): seq<Session> {
    if |order| <= n then order else order[|order| - n..]
  }

  // ---------------------------------------------------------------- orders

  lemma {:induction false} MinusFacts(order: seq<Session>, session: Session)
    ensures session !in order ==> Minus(order, session) == order
    ensures session in order ==> |Minus(order, session)| == |order| - 1
    ensures forall x :: x in Minus(order, session) ==> x in order
    ensures NoDuplicates(order) ==> session !in Minus(order, session) && NoDuplicates(Minus(order, session))
  {
    if order != [] {
      MinusFacts(order[1..], session);
      if NoDuplicates(order) {
        assert forall i :: 0 <= i < |order[1..]| ==> order[1..][i] == order[i + 1];
        assert order[0] !in order[1..];
      }
    }
  }

  lemma {:induction false} MinusConcat(a: seq<Session>, b: seq<Session>, session: Session)
    ensures Minus(a + b, session) == if session in a then Minus(a, session) + b else a + Minus(b, session)
  {
    if a == [] {
      assert a + b == b;
    } else {
      MinusConcat(a[1..], b, session);
      assert (a + b)[1..] == a[1..] + b;
    }
  }

  lemma {:induction false} RecentDistinct(events: seq<Event>)
    ensures NoDuplicates(Recent(events))
  {
    if events != [] {
      RecentDistinct(Front(events));
      MinusFacts(Recent(Front(events)), Last(events).session);
    }
  }

  lemma LastOfConcat(a: seq<Session>, b: seq<Session>, n: nat)
    requires |b| == n > 0
    ensures LastOnes(a + b, n) == b
  {
  }

  /** The last n of an order, once one more session has been used. */
  function Used(kept: seq<Session>, n: nat, session: Session): seq<Session> {
    if session in kept then Minus(kept, session) + [session]
    else if |kept| >= n > 0 then kept[1..] + [session]
    else kept + [session]
  }

  /** One more use, seen through the last n of the order. */
  lemma LastOnesStep(order: seq<Session>, n: nat, session: Session)
    requires NoDuplicates(order) && n > 0
    ensures LastOnes(Minus(order, session) + [session], n) == Used(LastOnes(order, n), n, session)
  {
    MinusFacts(order, session);
    if |order| > n {
      LastOnesFull(order, n, session);
    } else if session !in order && |order| == n {
      assert order + [session] == [order[0]] + (order[1..] + [session]);
      LastOfConcat([order[0]], order[1..] + [session], n);
    }
  }

  lemma LastOnesFull(order: seq<Session>, n: nat, session: Session)
    requires NoDuplicates(order) && |order| > n > 0
    ensures LastOnes(Minus(order, session) + [session], n) == Used(LastOnes(order, n), n, session)
  {
    var m := |order| - n;
    assert order == order[..m] + order[m..];
    if session in order[m..] {
      KeptUsed(order[..m], order[m..], session);
    } else {
      FreshUsed(order[..m], order[m..], session);
    }
  }

  lemma KeptUsed(earlier: seq<Session>, kept: seq<Session>, session: Session)
    requires NoDuplicates(earlier + kept) && session in kept
    ensures LastOnes(Minus(earlier + kept, session) + [session], |kept|) == Minus(kept, session) + [session]
  {
    var j :| 0 <= j < |kept| && kept[j] == session;
    assert (earlier + kept)[|earlier| + j] == session;
    assert forall i :: 0 <= i < |earlier| ==> (earlier + kept)[i] == earlier[i];
    assert session !in earlier;
    MinusConcat(earlier, kept, session);
    MinusFacts(kept, session);
    var last := Minus(kept, session) + [session];
    assert Minus(earlier + kept, session) + [session] == earlier + last;
    LastOfConcat(earlier, last, |kept|);
  }

  lemma FreshUsed(earlier: seq<Session>, kept: seq<Session>, session: Session)
    requires session !in kept && kept != [] && earlier != []
    ensures LastOnes(Minus(earlier + kept, session) + [session], |kept|) == kept[1..] + [session]
  {
    MinusConcat(earlier, kept, session);
    MinusFacts(earlier, session);
    MinusFacts(kept, session);
    var rest, last := Minus(earlier, session), kept[1..] + [session];
    assert Minus(earlier + kept, session) == rest + kept;
    assert rest + kept + [session] == (rest + [kept[0]]) + last;
    LastOfConcat(rest + [kept[0]], last, |kept|);
  }

  // ---------------------------------------------------------------- the cache

  lemma {:induction false} KeysPut(m: seq<Pair<Session, Memo>>, k: Session, v: Memo)
    ensures Keys(Put(m, k, v)) == if k in Keys(m) then Keys(m) else Keys(m) + [k]
  {
    if m == [] {
      assert Keys([Pair(k, v)]) == [k] + Keys([Pair(k, v)][1..]);
    } else if m[0].key != k {
      KeysPut(m[1..], k, v);
      assert Put(m, k, v)[1..] == Put(m[1..], k, v);
    } else {
      assert Put(m, k, v)[1..] == m[1..];
    }
  }

  lemma {:induction false} KeysDelete(m: seq<Pair<Session, Memo>>, k: Session)
    ensures Keys(Delete(m, k)) == Minus(Keys(m), k)
  {
    if m != [] && m[0].key != k {
      KeysDelete(m[1..], k);
      assert Delete(m, k)[1..] == Delete(m[1..], k);
      assert Keys(m)[1..] == Keys(m[1..]);
    }
  }

  lemma TouchOrder(s: State, session: Session)
    requires Inv(s)
    ensures Keys(Touch(s, session).cache) == Used(Keys(s.cache), MAX_SESSIONS, session)
  {
    KeysHold(s.cache, session);
    var found := Lookup(s.cache, session);
    if found.Some? {
      DeleteDistinct(s.cache, session);
      LookupDelete(s.cache, session, session);
      KeysDelete(s.cache, session);
      KeysHold(Delete(s.cache, session), session);
      KeysPut(Delete(s.cache, session), session, found.value);
    } else {
      var grown := Put(s.cache, session, OnDisk(s.disk, session));
      KeysPut(s.cache, session, OnDisk(s.disk, session));
      assert Keys(grown[1..]) == Keys(grown)[1..];
    }
  }

  lemma AccessOrder(s: State, session: Session, change: Change)
    requires Inv(s)
    ensures Keys(Access(s, session, change).cache) == Keys(Touch(s, session).cache)
  {
    TouchKeeps(s, session, session);
    KeysHold(Touch(s, session).cache, session);
    KeysPut(Touch(s, session).cache, session, Apply(change, Read(s, session)));
  }

  /** Over every history the cache holds exactly the 128 sessions used last, oldest use first. */
  lemma {:induction false} HoldsTheLatest(disk: map<Session, Memo>, events: seq<Event>)
    requires forall k :: 0 <= k < |events| ==> ModernChange(events[k].change)
    ensures Keys(Run(disk, events).cache) == LastOnes(Recent(events), 128)
  {
    if events != [] {
      var s, session := Run(disk, Front(events)), Last(events).session;
      HoldsTheLatest(disk, Front(events));
      CacheIsTransparent(disk, Front(events), session);
      TouchOrder(s, session);
      AccessOrder(s, session, Last(events).change);
      RecentDistinct(Front(events));
      LastOnesStep(Recent(Front(events)), 128, session);
    }
  }
}
