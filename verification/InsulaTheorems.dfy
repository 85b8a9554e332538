/** What the telemetry writer keeps: its bound, its accounts per endpoint, its numbering, and that
    nothing it holds is ever left without a timer or a drain. */
module InsulaTheorems {
  import opened Basics
  import opened InsertionOrder
  import opened InsulaModel

  // ---------------------------------------------------------------- buckets

  function Total(buckets: Buckets): nat {
    if buckets == [] then 0 else |buckets[0].value.events| + Total(buckets[1..])
  }

  lemma {:induction false} TotalPut(buckets: Buckets, url: Url, b: Bucket)
    ensures Total(Put(buckets, url, b)) == Total(buckets) - |Events(buckets, url)| + |b.events|
  {
    if buckets != [] && buckets[0].key != url {
      TotalPut(buckets[1..], url, b);
      assert Put(buckets, url, b)[1..] == Put(buckets[1..], url, b);
    }
  }

  lemma {:induction false} TotalDelete(buckets: Buckets, url: Url)
    ensures Total(Delete(buckets, url)) == Total(buckets) - |Events(buckets, url)|
  {
    if buckets != [] && buckets[0].key != url {
      TotalDelete(buckets[1..], url);
      assert Delete(buckets, url)[1..] == Delete(buckets[1..], url);
    }
  }

  lemma {:induction false} TotalCovers(buckets: Buckets, url: Url)
    ensures |Events(buckets, url)| <= Total(buckets)
  {
    if buckets != [] && buckets[0].key != url {
      TotalCovers(buckets[1..], url);
    }
  }

  // ---------------------------------------------------------------- the invariant

  ghost predicate CountsFit(drops: Drops) {
    forall k :: 0 <= k < |drops| ==> 1 <= drops[k].value.count <= MAX_DROP_COUNT
  }

  ghost predicate BatchesFit(t: seq<Entry>, maxBatch: nat) {
    forall k :: 0 <= k < |t| && t[k].Posted? ==> 1 <= |t[k].batch| <= maxBatch
  }

  /** `queued` counts the buffered events exactly and never passes the bound. */
  ghost predicate Accounts(s: State) {
    && 1 <= s.maxQueued && 1 <= s.maxBatch <= MAX_BATCH_EVENTS
    && Distinct(s.buckets) && Distinct(s.drops)
    && s.queued == Total(s.buckets) <= s.maxQueued
    && CountsFit(s.drops)
    && BatchesFit(s.trace, s.maxBatch)
  }

  /** Whatever is buffered or unreported has a timer, a waiting drain or a running one. */
  ghost predicate NothingStranded(s: State) {
    s.queued > 0 || s.drops != [] ==> s.timer || s.waiting > 0 || s.drain.Posting?
  }

  ghost predicate Inv(s: State) {
    Accounts(s) && NothingStranded(s)
  }

  lemma PushAccounts(s: State, endpoint: Endpoint, o: Observation)
    requires Accounts(s) && s.queued < s.maxQueued
    ensures Accounts(Push(s, endpoint, o))
  {
    var b := BucketAt(s.buckets, endpoint);
    TotalPut(s.buckets, endpoint.url, b.(events := b.events + [o]));
    PutDistinct(s.buckets, endpoint.url, b.(events := b.events + [o]));
  }

  lemma EnqueueKeeps(s: State, endpoint: Endpoint, payload: string, dropCount: nat)
    requires Accounts(s) && s.queued < s.maxQueued
    ensures Inv(Enqueue(s, endpoint, payload, dropCount))
    ensures Enqueue(s, endpoint, payload, dropCount).queued == s.queued + 1
  {
    PushAccounts(s, endpoint, Observation(s.sequence + 1, payload, dropCount));
  }

  lemma {:induction false} PutCountsFit(drops: Drops, url: Url, d: Dropped)
    requires CountsFit(drops) && 1 <= d.count <= MAX_DROP_COUNT
    ensures CountsFit(Put(drops, url, d))
  {
    if drops != [] && drops[0].key != url {
      assert forall k :: 0 <= k < |drops[1..]| ==> drops[1..][k] == drops[k + 1];
      PutCountsFit(drops[1..], url, d);
    }
  }

  lemma DropKeeps(s: State, endpoint: Endpoint)
    requires Inv(s) && s.queued >= s.maxQueued
    ensures Inv(Drop(s, endpoint))
  {
    var count := Count(s.drops, endpoint.url);
    var d := Dropped(endpoint.token, if count + 1 < MAX_DROP_COUNT then count + 1 else MAX_DROP_COUNT);
    PutDistinct(s.drops, endpoint.url, d);
    PutCountsFit(s.drops, endpoint.url, d);
  }

  lemma EmitKeeps(s: State, endpoint: Option<Endpoint>, payload: string)
    requires Inv(s)
    ensures Inv(Emit(s, endpoint, payload))
  {
    if endpoint.Some? {
      var t := Offer(s, endpoint.value, payload);
      if s.queued >= s.maxQueued {
        DropKeeps(t, endpoint.value);
      } else {
        EnqueueKeeps(t, endpoint.value, payload, 0);
      }
    }
  }

  // ---------------------------------------------------------------- the drain

  lemma PostAccounts(s: State, url: Url, b: Bucket, todo: seq<Url>)
    requires Accounts(s) && Lookup(s.buckets, url) == Some(b) && b.events != []
    ensures var t := Post(s, url, b, todo);
            Accounts(t) && t.drain.Posting? && t.queued < s.queued && t.drops == s.drops
  {
    var n := BatchSize(s.maxBatch, b.events);
    TotalPut(s.buckets, url, b.(events := b.events[n..]));
    PutDistinct(s.buckets, url, b.(events := b.events[n..]));
    TotalCovers(s.buckets, url);
  }

  /** A pass either suspends in a post, with fewer events queued, or changes nothing that counts. */
  lemma {:induction false} SweepAccounts(s: State, todo: seq<Url>)
    requires Accounts(s)
    ensures var t := Sweep(s, todo);
            && Accounts(t) && t.drops == s.drops
            && (if t.drain.Posting? then t.queued < s.queued else t.queued == s.queued)
            && t.timer == s.timer && t.waiting == s.waiting
    decreases |todo|
  {
    if todo != [] {
      var b := Lookup(s.buckets, todo[0]);
      if b.None? {
        SweepAccounts(s, todo[1..]);
      } else if b.value.events != [] {
        PostAccounts(s, todo[0], b.value, todo[1..]);
      } else {
        TotalDelete(s.buckets, todo[0]);
        DeleteDistinct(s.buckets, todo[0]);
        SweepAccounts(s.(buckets := Delete(s.buckets, todo[0])), todo[1..]);
      }
    }
  }

  /** Every endpoint with something buffered is still ahead in the pass. */
  ghost predicate Covers(todo: seq<Url>, buckets: Buckets) {
    forall url :: Events(buckets, url) != [] ==> url in todo
  }

  lemma {:induction false} TotalWitness(buckets: Buckets) returns (url: Url)
    requires Total(buckets) > 0 && Distinct(buckets)
    ensures Events(buckets, url) != []
  {
    if buckets[0].value.events != [] {
      url := buckets[0].key;
    } else {
      url := TotalWitness(buckets[1..]);
    }
  }

  lemma {:induction false} CoveringPassPosts(s: State, todo: seq<Url>)
    requires Accounts(s) && s.queued > 0 && Covers(todo, s.buckets)
    ensures Sweep(s, todo).drain.Posting?
    decreases |todo|
  {
    var url := TotalWitness(s.buckets);
    var b := Lookup(s.buckets, todo[0]);
    if b.None? {
      assert Covers(todo[1..], s.buckets);
      CoveringPassPosts(s, todo[1..]);
    } else if b.value.events == [] {
      var t := s.(buckets := Delete(s.buckets, todo[0]));
      TotalDelete(s.buckets, todo[0]);
      DeleteDistinct(s.buckets, todo[0]);
      forall u | Events(t.buckets, u) != [] ensures u in todo[1..] {
        LookupDelete(s.buckets, todo[0], u);
        assert Events(s.buckets, u) == Events(t.buckets, u) && u != todo[0];
        assert todo == [todo[0]] + todo[1..];
      }
      CoveringPassPosts(t, todo[1..]);
    }
  }

  /** A fresh pass over a non-empty writer always reaches a post: the drain cannot spin. */
  lemma PassPosts(s: State)
    requires Accounts(s) && s.queued > 0
    ensures Sweep(s, Keys(s.buckets)).drain.Posting?
  {
    forall url | Events(s.buckets, url) != [] ensures url in Keys(s.buckets) {
      KeysHold(s.buckets, url);
    }
    CoveringPassPosts(s, Keys(s.buckets));
  }

  lemma ReceiptEmitted(s: State)
    requires Accounts(s) && s.queued == 0
    ensures var r := EmitNextDropReceipt(s);
            && r.0 == (s.drops != [])
            && (if r.0 then Inv(r.1) && r.1.queued == 1 && r.1.drops == s.drops[1..] else r.1 == s)
  {
    if s.drops != [] {
      var next, t := s.drops[0], s.(drops := s.drops[1..]);
      assert forall k :: 0 <= k < |t.drops| ==> t.drops[k] == s.drops[k + 1];
      EnqueueKeeps(t, Endpoint(next.key, next.value.token), WRITER_OPERATION, next.value.count);
    }
  }

  /** Between two posts the drain either suspends in another post with less left to do, or ends
      with nothing buffered and nothing unreported. */
  ghost predicate Progress(s: State, t: State) {
    && Inv(t)
    && (if t.drain.Posting?
        then |t.drops| < |s.drops| || (|t.drops| == |s.drops| && t.queued < s.queued)
        else t.queued == 0 && t.drops == [])
  }

  lemma ReceiptProgress(s: State)
    requires Accounts(s) && s.queued == 0 && s.drain.Idle?
    ensures Progress(s, Receipt(s))
  {
    ReceiptEmitted(s);
    var r := EmitNextDropReceipt(s);
    if r.0 {
      PassPosts(r.1);
      SweepAccounts(r.1, Keys(r.1.buckets));
    }
  }

  lemma AdvanceProgress(s: State, todo: seq<Url>)
    requires Accounts(s)
    ensures Progress(s, Advance(s, todo))
  {
    var t := Sweep(s, todo);
    SweepAccounts(s, todo);
    if t.drain.Posting? {
    } else if t.queued > 0 {
      PassPosts(t);
      SweepAccounts(t, Keys(t.buckets));
    } else {
      SweepIdle(s, todo);
      ReceiptProgress(t);
    }
  }

  lemma {:induction false} SweepIdle(s: State, todo: seq<Url>)
    ensures Sweep(s, todo).drain.Posting? || Sweep(s, todo).drain.Idle?
  {
  }

  lemma StepKeeps(s: State, e: Event)
    requires Inv(s)
    ensures Inv(Step(s, e))
  {
    match e
    case EvEmit(endpoint, payload) => EmitKeeps(s, endpoint, payload);
    case EvTimer =>
    case EvFlush =>
    case EvDrainStart => DrainStartKeeps(s);
    case EvPostDone => PostDoneProgress(s);
  }

  lemma DrainStartKeeps(s: State)
    requires Inv(s)
    ensures Inv(DrainStart(s))
  {
    if s.waiting > 0 && s.drain.Idle? {
      var t := s.(waiting := s.waiting - 1);
      AdvanceProgress(t, Keys(t.buckets));
    }
  }

  lemma PostDoneProgress(s: State)
    requires Inv(s)
    ensures Inv(PostDone(s))
    ensures s.drain.Posting? ==> Progress(s, PostDone(s))
  {
    if s.drain.Posting? {
      AdvanceProgress(s, [s.drain.url] + s.drain.todo);
    }
  }

  /** `n` posts end, one after the other, and nothing arrives meanwhile. */
  function Posts(s: State, n: nat): State
    decreases n
  {
    if n == 0 then s else Posts(PostDone(s), n - 1)
  }

  /** Left alone, a drain ends, with nothing buffered and nothing unreported.  The measure: endpoints
      with unreported drops, then events queued. */
  lemma {:induction false} DrainEnds(s: State) returns (n: nat)
    requires Inv(s) && s.drain.Posting?
    ensures Posts(s, n).drain.Idle? && Posts(s, n).queued == 0 && Posts(s, n).drops == []
    decreases |s.drops|, s.queued
  {
    var t := PostDone(s);
    PostDoneProgress(s);
    if t.drain.Posting? {
      n := DrainEnds(t);
      n := n + 1;
    } else {
      n := 1;
      assert Posts(t, 0) == t;
    }
  }

  /** Events go on from a state. */
  function Onward(s: State, events: seq<Event>): State
    decreases |events|
  {
    if events == [] then s else Onward(Step(s, events[0]), events[1..])
  }

  lemma {:induction false} PostsOnward(s: State, n: nat) returns (events: seq<Event>)
    ensures Onward(s, events) == Posts(s, n)
    ensures forall k :: 0 <= k < |events| ==> events[k] == EvPostDone
    decreases n
  {
    events := [];
    if n > 0 {
      var rest := PostsOnward(PostDone(s), n - 1);
      events := [EvPostDone] + rest;
      assert events[1..] == rest;
    }
  }

  lemma {:induction false} DrainOnward(s: State) returns (events: seq<Event>)
    requires Inv(s) && (s.waiting > 0 || s.drain.Posting?)
    ensures forall k :: 0 <= k < |events| ==> events[k].EvDrainStart? || events[k].EvPostDone?
    ensures Onward(s, events).queued == 0 && Onward(s, events).drops == []
    decreases s.drain.Idle?
  {
    if s.drain.Posting? {
      var n := DrainEnds(s);
      events := PostsOnward(s, n);
    } else {
      var t := DrainStart(s);
      var u := s.(waiting := s.waiting - 1);
      AdvanceProgress(u, Keys(u.buckets));
      var rest: seq<Event> := [];
      if t.drain.Posting? { rest := DrainOnward(t); }
      events := [EvDrainStart] + rest;
      assert events[1..] == rest;
      assert Onward(t, []) == t;
    }
  }

  /** From every reachable state, timers, drains and ends of posts alone lead to a writer with nothing
      buffered and nothing unreported. */
  lemma LeftAloneItEmpties(maxQueued: int, maxBatch: int, events: seq<Event>) returns (more: seq<Event>)
    ensures forall k :: 0 <= k < |more| ==> more[k].EvTimer? || more[k].EvDrainStart? || more[k].EvPostDone?
    ensures var s := Onward(Run(maxQueued, maxBatch, events), more); s.queued == 0 && s.drops == []
  {
    var s := Run(maxQueued, maxBatch, events);
    RunKeeps(maxQueued, maxBatch, events);
    more := [];
    if s.waiting > 0 || s.drain.Posting? {
      more := DrainOnward(s);
    } else if s.timer {
      var rest := DrainOnward(TimerFired(s));
      more := [EvTimer] + rest;
      assert more[1..] == rest;
    }
  }

  lemma {:induction false} RunKeeps(maxQueued: int, maxBatch: int, events: seq<Event>)
    ensures Inv(Run(maxQueued, maxBatch, events))
  {
    if events != [] {
      RunKeeps(maxQueued, maxBatch, Front(events));
      StepKeeps(Run(maxQueued, maxBatch, Front(events)), Last(events));
    }
  }

  lemma {:induction false} SweepTakesTurns(s: State, todo: seq<Url>, i: nat)
    requires Distinct(s.buckets) && i < |todo| && Events(s.buckets, todo[i]) != []
    requires forall j :: 0 <= j < i ==> Events(s.buckets, todo[j]) == []
    ensures Sweep(s, todo).drain == Posting(todo[i], todo[i + 1..])
    decreases i
  {
    if i > 0 {
      assert forall j :: 0 <= j < |todo[1..]| ==> todo[1..][j] == todo[j + 1];
      assert todo[1..][i - 1 + 1..] == todo[i + 1..];
      assert Events(s.buckets, todo[0]) == [];
      if Lookup(s.buckets, todo[0]).None? {
        SweepTakesTurns(s, todo[1..], i - 1);
      } else {
        DeleteDistinct(s.buckets, todo[0]);
        forall j | 0 < j <= i ensures Events(Delete(s.buckets, todo[0]), todo[j]) == Events(s.buckets, todo[j]) {
          LookupDelete(s.buckets, todo[0], todo[j]);
        }
        SweepTakesTurns(s.(buckets := Delete(s.buckets, todo[0])), todo[1..], i - 1);
      }
    }
  }

  /** Over every history a pass takes the endpoints in turn: the next post goes to the endpoint just posted to
      while it has something buffered, then to the first that has among those the pass has still to come to, and
      a drain begins with those that were buffered first.  None is passed over. */
  lemma TurnsAreTaken(maxQueued: int, maxBatch: int, events: seq<Event>, i: nat)
    ensures var s := Run(maxQueued, maxBatch, events);
            && (s.drain.Posting? ==>
                  var turns := [s.drain.url] + s.drain.todo;
                  (i < |turns| && Events(s.buckets, turns[i]) != []
                   && forall j :: 0 <= j < i ==> Events(s.buckets, turns[j]) == [])
                  ==> Step(s, EvPostDone).drain == Posting(turns[i], turns[i + 1..]))
            && (s.drain.Idle? && s.waiting > 0 && i < |s.buckets| && s.buckets[i].value.events != []
                && (forall j :: 0 <= j < i ==> s.buckets[j].value.events == [])
                ==> var t := Step(s, EvDrainStart);
                    t.drain == Posting(s.buckets[i].key, Keys(s.buckets)[i + 1..]))
  {
    var s := Run(maxQueued, maxBatch, events);
    RunKeeps(maxQueued, maxBatch, events);
    if s.drain.Posting? {
      var turns := [s.drain.url] + s.drain.todo;
      if i < |turns| && Events(s.buckets, turns[i]) != []
         && forall j :: 0 <= j < i ==> Events(s.buckets, turns[j]) == [] {
        SweepTakesTurns(s, turns, i);
      }
    } else if s.waiting > 0 && i < |s.buckets| && s.buckets[i].value.events != []
              && forall j :: 0 <= j < i ==> s.buckets[j].value.events == [] {
      var t := s.(waiting := s.waiting - 1);
      forall j | 0 <= j <= i ensures Keys(s.buckets)[j] == s.buckets[j].key
                                     && Events(s.buckets, s.buckets[j].key) == s.buckets[j].value.events {
        EntryAt(s.buckets, j);
      }
      SweepTakesTurns(t, Keys(s.buckets), i);
    }
  }

  // ---------------------------------------------------------------- drains asked for

  lemma {:induction false} SweepLeavesTheRest(s: State, todo: seq<Url>)
    ensures var t := Sweep(s, todo);
            && t.waiting == s.waiting && t.timer == s.timer && t.maxBatch == s.maxBatch && t.drops == s.drops
    decreases |todo|
  {
    if todo != [] {
      var b := Lookup(s.buckets, todo[0]);
      if b.None? {
        SweepLeavesTheRest(s, todo[1..]);
      } else if b.value.events == [] {
        SweepLeavesTheRest(s.(buckets := Delete(s.buckets, todo[0])), todo[1..]);
      }
    }
  }

  lemma AdvanceLeavesTheRest(s: State, todo: seq<Url>)
    requires Accounts(s)
    ensures var t := Advance(s, todo);
            && (t.waiting == s.waiting || (s.maxBatch == 1 && s.drops != [] && t.waiting == s.waiting + 1))
            && (t.drain.Idle? ==> !t.timer)
  {
    var t := Sweep(s, todo);
    SweepLeavesTheRest(s, todo);
    SweepAccounts(s, todo);
    AdvanceProgress(s, todo);
    if !t.drain.Posting? {
      if t.queued > 0 {
        SweepLeavesTheRest(t, Keys(t.buckets));
        PassPosts(t);
      } else {
        ReceiptEmitted(t);
        var r := EmitNextDropReceipt(t);
        if r.0 {
          SweepLeavesTheRest(r.1, Keys(r.1.buckets));
          PassPosts(r.1);
        }
      }
    }
  }

  /** What each event makes of the drains to come: a flush asks for one, so does a timer that is set, and an
      offer that fills a batch, where any other offer taken sets the timer; a drain that begins is one of those
      asked for; the receipt it enqueues asks for another exactly when it is a batch by itself; and a drain that
      ends leaves no timer. */
  lemma DrainsAreAskedFor(maxQueued: int, maxBatch: int, events: seq<Event>, e: Event)
    ensures var s := Run(maxQueued, maxBatch, events); var t := Step(s, e);
            match e
            case EvFlush => t.waiting == s.waiting + 1 && !t.timer
            case EvTimer => t.waiting == s.waiting + (if s.timer then 1 else 0) && !t.timer
            case EvEmit(endpoint, _) =>
              if endpoint.None? || Total(s.buckets) >= s.maxQueued then t.waiting == s.waiting && t.timer == s.timer
              else if Total(s.buckets) + 1 >= s.maxBatch then t.waiting == s.waiting + 1 && !t.timer
              else t.waiting == s.waiting && t.timer
            case EvDrainStart =>
              if s.waiting == 0 || s.drain.Posting? then t == s
              else
                && (t.waiting == s.waiting - 1 || (s.maxBatch == 1 && s.drops != [] && t.waiting == s.waiting))
                && (t.drain.Idle? ==> !t.timer)
            case EvPostDone =>
              if s.drain.Idle? then t == s
              else
                && (t.waiting == s.waiting || (s.maxBatch == 1 && s.drops != [] && t.waiting == s.waiting + 1))
                && (t.drain.Idle? ==> !t.timer)
  {
    var s := Run(maxQueued, maxBatch, events);
    RunKeeps(maxQueued, maxBatch, events);
    match e
    case EvDrainStart =>
      if s.waiting > 0 && s.drain.Idle? {
        AdvanceLeavesTheRest(s.(waiting := s.waiting - 1), Keys(s.buckets));
      }
    case EvPostDone => if s.drain.Posting? { AdvanceLeavesTheRest(s, [s.drain.url] + s.drain.todo); }
    case _ =>
  }
}
