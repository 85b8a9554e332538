/** Conservation, order and numbering of the telemetry writer, endpoint by endpoint. */
module InsulaLedger {
  import opened Basics
  import opened InsertionOrder
  import opened InsulaModel
  import opened InsulaTheorems

  /** What was enqueued for an endpoint is what was posted to it followed by what is buffered. */
  ghost predicate Fifo(s: State, url: Url) {
    EnqueuedTo(s.trace, url) == PostedTo(s.trace, url) + Events(s.buckets, url)
  }

  /** Every observation offered is enqueued, counted in a receipt enqueued for the same endpoint,
      counted by the endpoint's pending counter, or lost because that counter was full. */
  ghost predicate Conserved(s: State, url: Url) {
    OfferedTo(s.trace, url)
    == TotalWeight(EnqueuedTo(s.trace, url)) + Count(s.drops, url) + Uncounted(s.trace, url)
  }

  /** Sequence numbers are 1, 2, 3, ... in the order of enqueueing. */
  ghost predicate Numbered(s: State) {
    var all := AllEnqueued(s.trace);
    |all| == s.sequence && forall k :: 0 <= k < |all| ==> all[k].sequence == k + 1
  }

  ghost predicate Ledger(s: State, url: Url) {
    Fifo(s, url) && Conserved(s, url) && Numbered(s)
  }

  lemma TraceAppend(t: seq<Entry>, e: Entry, url: Url)
    ensures OfferedTo(t + [e], url) == OfferedTo(t, url) + if e.Offered? && e.url == url then 1 else 0
    ensures Uncounted(t + [e], url) == Uncounted(t, url) + if e == Shed(url, false) then 1 else 0
    ensures EnqueuedTo(t + [e], url) == EnqueuedTo(t, url) + if e.Enqueued? && e.url == url then [e.event] else []
    ensures PostedTo(t + [e], url) == PostedTo(t, url) + if e.Posted? && e.url == url then e.batch else []
    ensures AllEnqueued(t + [e]) == AllEnqueued(t) + if e.Enqueued? then [e.event] else []
  {
    Snoc(t, e);
  }

  lemma WeightAppend(events: seq<Observation>, o: Observation)
    ensures TotalWeight(events + [o]) == TotalWeight(events) + Weight(o)
  {
    Snoc(events, o);
  }

  /** All but the balance between what was offered and what is accounted for. */
  ghost predicate InOrderly(s: State, url: Url) {
    Fifo(s, url) && Numbered(s)
  }

  lemma PushQueues(s: State, endpoint: Endpoint, o: Observation, url: Url)
    requires Fifo(s, url)
    ensures Fifo(Push(s, endpoint, o), url)
    ensures EnqueuedTo(Push(s, endpoint, o).trace, url)
            == EnqueuedTo(s.trace, url) + if endpoint.url == url then [o] else []
  {
    var b := BucketAt(s.buckets, endpoint);
    TraceAppend(s.trace, Enqueued(endpoint.url, endpoint.token, o), url);
    LookupPut(s.buckets, endpoint.url, b.(events := b.events + [o]), url);
  }

  lemma PushNumbers(s: State, endpoint: Endpoint, o: Observation)
    requires Numbered(s) && o.sequence == s.sequence + 1
    ensures Numbered(Push(s, endpoint, o))
  {
    TraceAppend(s.trace, Enqueued(endpoint.url, endpoint.token, o), endpoint.url);
  }

  lemma PushOrderly(s: State, endpoint: Endpoint, payload: string, dropCount: nat, url: Url)
    requires InOrderly(s, url)
    ensures var t := Push(s, endpoint, Observation(s.sequence + 1, payload, dropCount));
            && InOrderly(t, url) && t.drops == s.drops
            && OfferedTo(t.trace, url) == OfferedTo(s.trace, url)
            && Uncounted(t.trace, url) == Uncounted(s.trace, url)
            && TotalWeight(EnqueuedTo(t.trace, url)) == TotalWeight(EnqueuedTo(s.trace, url))
               + if endpoint.url == url then Weight(Observation(s.sequence + 1, payload, dropCount)) else 0
  {
    var o := Observation(s.sequence + 1, payload, dropCount);
    PushQueues(s, endpoint, o, url);
    PushNumbers(s, endpoint, o);
    TraceAppend(s.trace, Enqueued(endpoint.url, endpoint.token, o), url);
    WeightAppend(EnqueuedTo(s.trace, url), o);
  }

  lemma EnqueueOrderly(s: State, endpoint: Endpoint, payload: string, dropCount: nat, url: Url)
    requires InOrderly(s, url)
    ensures var t := Enqueue(s, endpoint, payload, dropCount);
            && InOrderly(t, url) && t.drops == s.drops
            && OfferedTo(t.trace, url) == OfferedTo(s.trace, url)
            && Uncounted(t.trace, url) == Uncounted(s.trace, url)
            && TotalWeight(EnqueuedTo(t.trace, url)) == TotalWeight(EnqueuedTo(s.trace, url))
               + if endpoint.url == url then Weight(Observation(s.sequence + 1, payload, dropCount)) else 0
  {
    PushOrderly(s, endpoint, payload, dropCount, url);
  }

  lemma EnqueueLedger(s: State, endpoint: Endpoint, payload: string, url: Url)
    requires Ledger(s, url)
    ensures Ledger(Enqueue(Offer(s, endpoint, payload), endpoint, payload, 0), url)
  {
    var t := Offer(s, endpoint, payload);
    TraceAppend(s.trace, Offered(endpoint.url, endpoint.token, payload), url);
    EnqueueOrderly(t, endpoint, payload, 0, url);
  }

  lemma {:induction false} CountFits(drops: Drops, url: Url)
    requires CountsFit(drops)
    ensures Count(drops, url) <= MAX_DROP_COUNT
  {
    if drops != [] && drops[0].key != url {
      assert forall k :: 0 <= k < |drops[1..]| ==> drops[1..][k] == drops[k + 1];
      CountFits(drops[1..], url);
    }
  }

  lemma DropLedger(s: State, endpoint: Endpoint, payload: string, url: Url)
    requires Ledger(s, url) && CountsFit(s.drops)
    ensures Ledger(Drop(Offer(s, endpoint, payload), endpoint), url)
  {
    var t, count := Offer(s, endpoint, payload), Count(s.drops, endpoint.url);
    var d := Dropped(endpoint.token, if count + 1 < MAX_DROP_COUNT then count + 1 else MAX_DROP_COUNT);
    TraceAppend(s.trace, Offered(endpoint.url, endpoint.token, payload), url);
    TraceAppend(t.trace, Shed(endpoint.url, count < MAX_DROP_COUNT), url);
    LookupPut(s.drops, endpoint.url, d, url);
    CountFits(s.drops, endpoint.url);
  }

  lemma EmitLedger(s: State, endpoint: Option<Endpoint>, payload: string, url: Url)
    requires Inv(s) && Ledger(s, url)
    ensures Ledger(Emit(s, endpoint, payload), url)
  {
    if endpoint.Some? {
      if s.queued >= s.maxQueued {
        DropLedger(s, endpoint.value, payload, url);
      } else {
        EnqueueLedger(s, endpoint.value, payload, url);
      }
    }
  }

  lemma OldestCount(drops: Drops, url: Url)
    requires Distinct(drops) && drops != []
    ensures Count(drops, url) == Count(drops[1..], url) + if drops[0].key == url then drops[0].value.count else 0
  {
  }

  /** The receipt weighs what its counter held. */
  lemma ReceiptLedger(s: State, url: Url)
    requires Accounts(s) && Ledger(s, url)
    ensures Ledger(EmitNextDropReceipt(s).1, url)
  {
    if s.drops != [] {
      var next, t := s.drops[0], s.(drops := s.drops[1..]);
      OldestCount(s.drops, url);
      assert InOrderly(t, url);
      EnqueueOrderly(t, Endpoint(next.key, next.value.token), WRITER_OPERATION, next.value.count, url);
    }
  }

  lemma PostLedger(s: State, to: Url, b: Bucket, todo: seq<Url>, url: Url)
    requires Ledger(s, url) && Lookup(s.buckets, to) == Some(b)
    ensures Ledger(Post(s, to, b, todo), url)
  {
    var n := BatchSize(s.maxBatch, b.events);
    TraceAppend(s.trace, Posted(to, b.token, b.events[..n]), url);
    LookupPut(s.buckets, to, b.(events := b.events[n..]), url);
    assert b.events == b.events[..n] + b.events[n..];
  }

  lemma {:induction false} SweepLedger(s: State, todo: seq<Url>, url: Url)
    requires Accounts(s) && Ledger(s, url)
    ensures Ledger(Sweep(s, todo), url)
    decreases |todo|
  {
    if todo != [] {
      var b := Lookup(s.buckets, todo[0]);
      if b.None? {
        SweepLedger(s, todo[1..], url);
      } else if b.value.events != [] {
        PostLedger(s, todo[0], b.value, todo[1..], url);
      } else {
        TotalDelete(s.buckets, todo[0]);
        DeleteDistinct(s.buckets, todo[0]);
        LookupDelete(s.buckets, todo[0], url);
        SweepLedger(s.(buckets := Delete(s.buckets, todo[0])), todo[1..], url);
      }
    }
  }

  lemma AdvanceLedger(s: State, todo: seq<Url>, url: Url)
    requires Accounts(s) && Ledger(s, url)
    ensures Ledger(Advance(s, todo), url)
  {
    var t := Sweep(s, todo);
    SweepAccounts(s, todo);
    SweepLedger(s, todo, url);
    if t.drain.Posting? {
    } else if t.queued > 0 {
      SweepLedger(t, Keys(t.buckets), url);
    } else {
      var r := EmitNextDropReceipt(t);
      ReceiptEmitted(t);
      ReceiptLedger(t, url);
      if r.0 { SweepLedger(r.1, Keys(r.1.buckets), url); }
    }
  }

  lemma DrainStartLedger(s: State, url: Url)
    requires Inv(s) && Ledger(s, url)
    ensures Ledger(DrainStart(s), url)
  {
    if s.waiting > 0 && s.drain.Idle? {
      var t := s.(waiting := s.waiting - 1);
      AdvanceLedger(t, Keys(t.buckets), url);
    }
  }

  lemma StepLedger(s: State, e: Event, url: Url)
    requires Inv(s) && Ledger(s, url)
    ensures Ledger(Step(s, e), url)
  {
    match e
    case EvEmit(endpoint, payload) => EmitLedger(s, endpoint, payload, url);
    case EvTimer =>
    case EvFlush =>
    case EvDrainStart => DrainStartLedger(s, url);
    case EvPostDone =>
      if s.drain.Posting? { AdvanceLedger(s, [s.drain.url] + s.drain.todo, url); }
  }

  lemma {:induction false} RunLedger(maxQueued: int, maxBatch: int, events: seq<Event>, url: Url)
    ensures Ledger(Run(maxQueued, maxBatch, events), url)
  {
    if events != [] {
      RunLedger(maxQueued, maxBatch, Front(events), url);
      RunKeeps(maxQueued, maxBatch, Front(events));
      StepLedger(Run(maxQueued, maxBatch, Front(events)), Last(events), url);
    }
  }

  // ---------------------------------------------------------------- the theorems

  lemma {:induction false} WeightConcat(a: seq<Observation>, b: seq<Observation>)
    ensures TotalWeight(a + b) == TotalWeight(a) + TotalWeight(b)
  {
    if b == [] {
      assert a + b == a;
    } else {
      assert a + b == (a + Front(b)) + [Last(b)];
      WeightAppend(a + Front(b), Last(b));
      WeightConcat(a, Front(b));
    }
  }

  /** Conservation.  Per endpoint, over every history: offered == posted + buffered + pending drops,
      receipts weighing the drops they report, up to what a saturated counter could not count. */
  lemma NothingVanishes(maxQueued: int, maxBatch: int, events: seq<Event>, url: Url)
    ensures var s := Run(maxQueued, maxBatch, events);
            OfferedTo(s.trace, url)
            == TotalWeight(PostedTo(s.trace, url)) + TotalWeight(Events(s.buckets, url))
               + Count(s.drops, url) + Uncounted(s.trace, url)
  {
    var s := Run(maxQueued, maxBatch, events);
    RunLedger(maxQueued, maxBatch, events, url);
    WeightConcat(PostedTo(s.trace, url), Events(s.buckets, url));
  }

  ghost predicate Rising(events: seq<Observation>) {
    forall i, j :: 0 <= i < j < |events| ==> events[i].sequence < events[j].sequence
  }

  ghost predicate UpTo(events: seq<Observation>, n: nat) {
    forall k :: 0 <= k < |events| ==> 1 <= events[k].sequence <= n
  }

  ghost predicate NumberedTrace(t: seq<Entry>) {
    forall k :: 0 <= k < |AllEnqueued(t)| ==> AllEnqueued(t)[k].sequence == k + 1
  }

  lemma NumberedFront(t: seq<Entry>)
    requires NumberedTrace(t) && t != []
    ensures NumberedTrace(Front(t))
    ensures Last(t).Enqueued? ==> Last(t).event.sequence == |AllEnqueued(t)|
  {
    var all, before := AllEnqueued(t), AllEnqueued(Front(t));
    assert forall k :: 0 <= k < |before| ==> all[k] == before[k];
    if Last(t).Enqueued? {
      assert all[|before|] == Last(t).event;
    }
  }

  lemma {:induction false} EnqueuedRises(t: seq<Entry>, url: Url)
    requires NumberedTrace(t)
    ensures Rising(EnqueuedTo(t, url)) && UpTo(EnqueuedTo(t, url), |AllEnqueued(t)|)
  {
    if t != [] {
      NumberedFront(t);
      EnqueuedRises(Front(t), url);
    }
  }

  /** Sequence numbers rise per endpoint, through everything posted and then everything buffered. */
  lemma PostedInOrder(maxQueued: int, maxBatch: int, events: seq<Event>, url: Url)
    ensures var s := Run(maxQueued, maxBatch, events);
            && Rising(PostedTo(s.trace, url) + Events(s.buckets, url))
            && UpTo(PostedTo(s.trace, url) + Events(s.buckets, url), s.sequence)
  {
    var s := Run(maxQueued, maxBatch, events);
    RunLedger(maxQueued, maxBatch, events, url);
    EnqueuedRises(s.trace, url);
  }

  ghost predicate HasNumber(events: seq<Observation>, n: nat) {
    exists k :: 0 <= k < |events| && events[k].sequence == n
  }

  lemma {:induction false} NumberHasEndpoint(t: seq<Entry>, n: nat) returns (url: Url)
    requires NumberedTrace(t) && 1 <= n <= |AllEnqueued(t)|
    ensures HasNumber(EnqueuedTo(t, url), n)
    ensures forall other: Url :: HasNumber(EnqueuedTo(t, other), n) ==> other == url
  {
    var f := Front(t);
    NumberedFront(t);
    if Last(t).Enqueued? && n == |AllEnqueued(t)| {
      url := Last(t).url;
      assert EnqueuedTo(t, url)[|EnqueuedTo(f, url)|].sequence == n;
      forall other: Url | HasNumber(EnqueuedTo(t, other), n) ensures other == url {
        EnqueuedRises(f, other);
      }
    } else {
      url := NumberHasEndpoint(f, n);
      var e := EnqueuedTo(f, url);
      var k :| 0 <= k < |e| && e[k].sequence == n;
      assert EnqueuedTo(t, url)[k].sequence == n;
      forall other: Url | HasNumber(EnqueuedTo(t, other), n) ensures other == url {
        NumberElsewhere(t, other, n);
      }
    }
  }

  lemma NumberElsewhere(t: seq<Entry>, url: Url, n: nat)
    requires t != [] && HasNumber(EnqueuedTo(t, url), n)
    requires Last(t).Enqueued? ==> Last(t).event.sequence != n
    ensures HasNumber(EnqueuedTo(Front(t), url), n)
  {
    var e := EnqueuedTo(t, url);
    var k :| 0 <= k < |e| && e[k].sequence == n;
    assert EnqueuedTo(Front(t), url)[k].sequence == n;
  }

  /** Every number from 1 to the counter was given to exactly one observation, at exactly one place
      of exactly one endpoint, where it is posted or still buffered. */
  lemma NumbersAreUsedOnce(maxQueued: int, maxBatch: int, events: seq<Event>, n: nat) returns (url: Url)
    requires 1 <= n <= Run(maxQueued, maxBatch, events).sequence
    ensures var s := Run(maxQueued, maxBatch, events);
            && HasNumber(PostedTo(s.trace, url) + Events(s.buckets, url), n)
            && forall other: Url :: HasNumber(PostedTo(s.trace, other) + Events(s.buckets, other), n) ==> other == url
  {
    var s := Run(maxQueued, maxBatch, events);
    RunLedger(maxQueued, maxBatch, events, "");
    url := NumberHasEndpoint(s.trace, n);
    forall other: Url ensures PostedTo(s.trace, other) + Events(s.buckets, other) == EnqueuedTo(s.trace, other) {
      RunLedger(maxQueued, maxBatch, events, other);
    }
  }
}
