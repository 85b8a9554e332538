/** What the telemetry writer posts, endpoint by endpoint: the payloads it was offered, in order, under the
    token given last; and when it sheds, posts and drains. */
module InsulaContents {
  import opened Basics
  import opened InsertionOrder
  import opened InsulaModel
  import opened InsulaTheorems
  import opened InsulaLedger

  // ---------------------------------------------------------------- reading the trace

  /** The payloads offered to an endpoint and not shed: a shedding takes the latest offer back. */
  function Accepted(t: seq<Entry>, url: Url): seq<string> {
    if t == [] then []
    else
      var e, before := Last(t), Accepted(Front(t), url);
      if e.Offered? && e.url == url then before + [e.payload]
      else if e.Shed? && e.url == url && before != [] then Front(before)
      else before
  }

  /** The payloads of the observations that report no drops. */
  function Contents(events: seq<Observation>): seq<string> {
    if events == [] then []
    else if Last(events).dropCount == 0 then Contents(Front(events)) + [Last(events).payload]
    else Contents(Front(events))
  }

  /** The token given last with something enqueued for the endpoint. */
  function LastToken(t: seq<Entry>, url: Url): Option<string> {
    if t == [] then None
    else if Last(t).Enqueued? && Last(t).url == url then Some(Last(t).token)
    else LastToken(Front(t), url)
  }

  /** The token of the endpoint's latest offer that was shed. */
  function ShedToken(t: seq<Entry>, url: Url): Option<string> {
    if t == [] then None
    else if Last(t).Shed? && Last(t).url == url && |t| > 1 && t[|t| - 2].Offered? then Some(t[|t| - 2].token)
    else ShedToken(Front(t), url)
  }

  /** Posts go out under the token given last; what is enqueued came with its token: just now with an offer,
      or with the last offer shed. */
  predicate RightToken(t: seq<Entry>, k: nat)
    requires k < |t|
  {
    match t[k]
    case Posted(url, token, _) => LastToken(t[..k], url) == Some(token)
    case Enqueued(url, token, o) =>
      if o.dropCount == 0 then k > 0 && t[k - 1] == Offered(url, token, o.payload)
      else ShedToken(t[..k], url) == Some(token)
    case _ => true
  }

  ghost predicate RightTokens(t: seq<Entry>) {
    forall k: nat :: k < |t| ==> RightToken(t, k)
  }

  lemma TokensAppend(t: seq<Entry>, e: Entry)
    requires RightTokens(t) && RightToken(t + [e], |t|)
    ensures RightTokens(t + [e])
  {
    forall k: nat | k < |t| ensures RightToken(t + [e], k) {
      assert (t + [e])[..k] == t[..k] && (t + [e])[k] == t[k] && RightToken(t, k);
    }
  }

  lemma ReadAppend(t: seq<Entry>, e: Entry, url: Url)
    ensures LastToken(t + [e], url) == if e.Enqueued? && e.url == url then Some(e.token) else LastToken(t, url)
    ensures !(e.Shed? && e.url == url) ==> ShedToken(t + [e], url) == ShedToken(t, url)
    ensures (e.Enqueued? || e.Posted?) ==> Accepted(t + [e], url) == Accepted(t, url)
    ensures EnqueuedTo(t + [e], url) == EnqueuedTo(t, url) + if e.Enqueued? && e.url == url then [e.event] else []
  {
    Snoc(t, e);
  }

  lemma ContentsAppend(events: seq<Observation>, o: Observation)
    ensures Contents(events + [o]) == Contents(events) + if o.dropCount == 0 then [o.payload] else []
  {
    Snoc(events, o);
  }

  ghost predicate WritersOwn(events: seq<Observation>) {
    forall k :: 0 <= k < |events| && events[k].dropCount > 0 ==> events[k].payload == "insula_writer"
  }

  // ---------------------------------------------------------------- what every step keeps

  ghost predicate TokensHeld(s: State, url: Url) {
    && (Lookup(s.buckets, url).Some? ==> LastToken(s.trace, url) == Some(Lookup(s.buckets, url).value.token))
    && (Lookup(s.drops, url).Some? ==> ShedToken(s.trace, url) == Some(Lookup(s.drops, url).value.token))
  }

  /** The contents are those accepted, receipts are the writer's own, and tokens are those given last. */
  ghost predicate Kept(s: State, url: Url) {
    && Contents(EnqueuedTo(s.trace, url)) == Accepted(s.trace, url)
    && WritersOwn(EnqueuedTo(s.trace, url))
    && TokensHeld(s, url)
  }

  lemma PushReads(s: State, endpoint: Endpoint, o: Observation, url: Url)
    ensures var t := Push(s, endpoint, o);
            && t.trace == s.trace + [Enqueued(endpoint.url, endpoint.token, o)] && t.drops == s.drops
            && Accepted(t.trace, url) == Accepted(s.trace, url)
            && EnqueuedTo(t.trace, url) == EnqueuedTo(s.trace, url) + (if endpoint.url == url then [o] else [])
            && (TokensHeld(s, url) ==> TokensHeld(t, url))
  {
    var b := BucketAt(s.buckets, endpoint);
    ReadAppend(s.trace, Enqueued(endpoint.url, endpoint.token, o), url);
    LookupPut(s.buckets, endpoint.url, b.(events := b.events + [o]), url);
  }

  lemma SameKept(s: State, t: State, url: Url)
    requires Kept(s, url) && t.trace == s.trace && t.buckets == s.buckets && t.drops == s.drops
    ensures Kept(t, url)
  {
  }

  /** Enqueued, an observation is among the contents, and a receipt is the writer's own. */
  lemma PushKept(s: State, endpoint: Endpoint, o: Observation, url: Url)
    requires TokensHeld(s, url) && WritersOwn(EnqueuedTo(s.trace, url))
    requires o.dropCount > 0 ==> o.payload == "insula_writer"
    requires Contents(EnqueuedTo(s.trace, url)) + (if endpoint.url == url && o.dropCount == 0 then [o.payload] else [])
             == Accepted(s.trace, url)
    ensures Kept(Push(s, endpoint, o), url)
  {
    PushReads(s, endpoint, o, url);
    ContentsAppend(EnqueuedTo(s.trace, url), o);
  }

  lemma EnqueuedKept(s: State, endpoint: Endpoint, payload: string, dropCount: nat, url: Url)
    requires Kept(Push(s, endpoint, Observation(s.sequence + 1, payload, dropCount)), url)
    ensures Kept(Enqueue(s, endpoint, payload, dropCount), url)
  {
    SameKept(Push(s, endpoint, Observation(s.sequence + 1, payload, dropCount)),
             Enqueue(s, endpoint, payload, dropCount), url);
  }

  /** An observation enqueued right after its offer. */
  lemma EnqueueKept(s: State, endpoint: Endpoint, payload: string, url: Url)
    requires Kept(s, url)
    ensures Kept(Enqueue(Offer(s, endpoint, payload), endpoint, payload, 0), url)
  {
    var t, offered := Offer(s, endpoint, payload), Offered(endpoint.url, endpoint.token, payload);
    Snoc(s.trace, offered);
    ReadAppend(s.trace, offered, url);
    PushKept(t, endpoint, Observation(s.sequence + 1, payload, 0), url);
    EnqueuedKept(t, endpoint, payload, 0, url);
  }

  lemma EnqueueTokens(s: State, endpoint: Endpoint, payload: string)
    requires RightTokens(s.trace)
    ensures RightTokens(Enqueue(Offer(s, endpoint, payload), endpoint, payload, 0).trace)
  {
    var offered := Offered(endpoint.url, endpoint.token, payload);
    var t, o := s.trace + [offered], Observation(s.sequence + 1, payload, 0);
    TokensAppend(s.trace, offered);
    assert t[|s.trace|] == offered;
    TokensAppend(t, Enqueued(endpoint.url, endpoint.token, o));
  }

  lemma DropReads(t: seq<Entry>, offered: Entry, counted: bool, url: Url)
    requires offered.Offered?
    ensures var u := t + [offered] + [Shed(offered.url, counted)];
            && Accepted(u, url) == Accepted(t, url)
            && EnqueuedTo(u, url) == EnqueuedTo(t, url) && LastToken(u, url) == LastToken(t, url)
            && ShedToken(u, url) == if offered.url == url then Some(offered.token) else ShedToken(t, url)
  {
    var m, shed := t + [offered], Shed(offered.url, counted);
    Snoc(t, offered);
    Snoc(m, shed);
    ReadAppend(t, offered, url);
    ReadAppend(m, shed, url);
    assert (m + [shed])[|t|] == offered;
    if offered.url == url { Snoc(Accepted(t, url), offered.payload); }
  }

  lemma DropKept(s: State, endpoint: Endpoint, payload: string, url: Url)
    requires Kept(s, url)
    ensures Kept(Drop(Offer(s, endpoint, payload), endpoint), url)
  {
    var count := Count(s.drops, endpoint.url);
    var d := Dropped(endpoint.token, if count + 1 < MAX_DROP_COUNT then count + 1 else MAX_DROP_COUNT);
    DropReads(s.trace, Offered(endpoint.url, endpoint.token, payload), count < MAX_DROP_COUNT, url);
    LookupPut(s.drops, endpoint.url, d, url);
  }

  lemma DropTokens(s: State, endpoint: Endpoint, payload: string)
    requires RightTokens(s.trace)
    ensures RightTokens(Drop(Offer(s, endpoint, payload), endpoint).trace)
  {
    var t := s.trace + [Offered(endpoint.url, endpoint.token, payload)];
    TokensAppend(s.trace, Offered(endpoint.url, endpoint.token, payload));
    TokensAppend(t, Shed(endpoint.url, Count(s.drops, endpoint.url) < MAX_DROP_COUNT));
  }

  lemma EmitKept(s: State, endpoint: Option<Endpoint>, payload: string, url: Url)
    requires Kept(s, url) && RightTokens(s.trace)
    ensures Kept(Emit(s, endpoint, payload), url) && RightTokens(Emit(s, endpoint, payload).trace)
  {
    if endpoint.Some? {
      if s.queued >= s.maxQueued {
        DropKept(s, endpoint.value, payload, url);
        DropTokens(s, endpoint.value, payload);
      } else {
        EnqueueKept(s, endpoint.value, payload, url);
        EnqueueTokens(s, endpoint.value, payload);
      }
    }
  }

  lemma FewerDrops(s: State, url: Url)
    requires Kept(s, url) && Distinct(s.drops) && s.drops != []
    ensures Kept(s.(drops := s.drops[1..]), url)
  {
  }

  lemma ReceiptIs(s: State)
    requires Accounts(s) && s.drops != []
    ensures var next, t := s.drops[0], s.(drops := s.drops[1..]);
            EmitNextDropReceipt(s).1
            == Enqueue(t, Endpoint(next.key, next.value.token), WRITER_OPERATION, next.value.count)
  {
  }

  lemma ReceiptPushed(s: State, endpoint: Endpoint, count: nat, url: Url)
    requires Kept(s, url) && count > 0
    ensures Kept(Enqueue(s, endpoint, WRITER_OPERATION, count), url)
  {
    PushKept(s, endpoint, Observation(s.sequence + 1, WRITER_OPERATION, count), url);
    EnqueuedKept(s, endpoint, WRITER_OPERATION, count, url);
  }

  /** The oldest counter's receipt goes out under the token of the offer it shed last. */
  lemma ReceiptKept(s: State, url: Url)
    requires Accounts(s) && Kept(s, url)
    ensures Kept(EmitNextDropReceipt(s).1, url)
  {
    if s.drops != [] {
      var next := s.drops[0];
      FewerDrops(s, url);
      ReceiptPushed(s.(drops := s.drops[1..]), Endpoint(next.key, next.value.token), next.value.count, url);
      ReceiptIs(s);
    }
  }

  lemma ReceiptTokens(s: State)
    requires Accounts(s) && RightTokens(s.trace) && forall url :: TokensHeld(s, url)
    ensures RightTokens(EmitNextDropReceipt(s).1.trace)
  {
    if s.drops != [] {
      var next := s.drops[0];
      var o := Observation(s.sequence + 1, WRITER_OPERATION, next.value.count);
      var e := Enqueued(next.key, next.value.token, o);
      assert TokensHeld(s, next.key) && Lookup(s.drops, next.key) == Some(next.value);
      assert (s.trace + [e])[..|s.trace|] == s.trace;
      TokensAppend(s.trace, e);
    }
  }

  lemma PostKept(s: State, to: Url, b: Bucket, todo: seq<Url>, url: Url)
    requires Kept(s, url) && Lookup(s.buckets, to) == Some(b)
    ensures Kept(Post(s, to, b, todo), url)
  {
    var n := BatchSize(s.maxBatch, b.events);
    ReadAppend(s.trace, Posted(to, b.token, b.events[..n]), url);
    LookupPut(s.buckets, to, b.(events := b.events[n..]), url);
  }

  lemma PostTokens(s: State, to: Url, b: Bucket, todo: seq<Url>)
    requires RightTokens(s.trace) && TokensHeld(s, to) && Lookup(s.buckets, to) == Some(b)
    ensures RightTokens(Post(s, to, b, todo).trace)
  {
    var e := Posted(to, b.token, b.events[..BatchSize(s.maxBatch, b.events)]);
    assert (s.trace + [e])[..|s.trace|] == s.trace;
    TokensAppend(s.trace, e);
  }

  lemma EmptyGone(s: State, gone: Url, url: Url)
    requires Kept(s, url) && Distinct(s.buckets)
    ensures Kept(s.(buckets := Delete(s.buckets, gone)), url)
  {
    LookupDelete(s.buckets, gone, url);
  }

  lemma {:induction false} SweepKept(s: State, todo: seq<Url>, url: Url)
    requires Accounts(s) && Kept(s, url)
    ensures Kept(Sweep(s, todo), url)
    decreases |todo|
  {
    if todo != [] {
      var b := Lookup(s.buckets, todo[0]);
      if b.None? {
        SweepKept(s, todo[1..], url);
      } else if b.value.events != [] {
        PostKept(s, todo[0], b.value, todo[1..], url);
      } else {
        TotalDelete(s.buckets, todo[0]);
        DeleteDistinct(s.buckets, todo[0]);
        EmptyGone(s, todo[0], url);
        SweepKept(s.(buckets := Delete(s.buckets, todo[0])), todo[1..], url);
      }
    }
  }

  ghost predicate AllKept(s: State) {
    RightTokens(s.trace) && forall url :: Kept(s, url)
  }

  lemma {:induction false} SweepTokens(s: State, todo: seq<Url>)
    requires Accounts(s) && AllKept(s)
    ensures RightTokens(Sweep(s, todo).trace)
    decreases |todo|
  {
    if todo != [] {
      var b := Lookup(s.buckets, todo[0]);
      if b.None? {
        SweepTokens(s, todo[1..]);
      } else if b.value.events != [] {
        assert Kept(s, todo[0]);
        PostTokens(s, todo[0], b.value, todo[1..]);
      } else {
        TotalDelete(s.buckets, todo[0]);
        DeleteDistinct(s.buckets, todo[0]);
        forall url { EmptyGone(s, todo[0], url); }
        SweepTokens(s.(buckets := Delete(s.buckets, todo[0])), todo[1..]);
      }
    }
  }

  lemma SweepAllKept(s: State, todo: seq<Url>)
    requires Accounts(s) && AllKept(s)
    ensures AllKept(Sweep(s, todo))
  {
    SweepTokens(s, todo);
    forall url { SweepKept(s, todo, url); }
  }

  lemma ReceiptAllKept(s: State)
    requires Accounts(s) && AllKept(s)
    ensures AllKept(EmitNextDropReceipt(s).1)
  {
    assert forall url :: Kept(s, url) ==> TokensHeld(s, url);
    ReceiptTokens(s);
    forall url { ReceiptKept(s, url); }
  }

  lemma AdvanceAllKept(s: State, todo: seq<Url>)
    requires Accounts(s) && AllKept(s)
    ensures AllKept(Advance(s, todo))
  {
    var t := Sweep(s, todo);
    SweepAccounts(s, todo);
    SweepAllKept(s, todo);
    if t.drain.Posting? {
    } else if t.queued > 0 {
      SweepAllKept(t, Keys(t.buckets));
    } else {
      var r := EmitNextDropReceipt(t);
      ReceiptEmitted(t);
      ReceiptAllKept(t);
      if r.0 { SweepAllKept(r.1, Keys(r.1.buckets)); } else { TimerOff(r.1); }
    }
  }

  lemma TimerOff(s: State)
    requires AllKept(s)
    ensures AllKept(s.(timer := false))
  {
    forall url ensures Kept(s.(timer := false), url) { assert Kept(s, url); }
  }

  lemma WaitingAllKept(s: State, n: nat)
    requires AllKept(s)
    ensures AllKept(s.(waiting := n)) && AllKept(s.(timer := false, waiting := n))
  {
    forall url ensures Kept(s.(waiting := n), url) && Kept(s.(timer := false, waiting := n), url) {
      assert Kept(s, url);
    }
  }

  lemma EmitAllKept(s: State, endpoint: Option<Endpoint>, payload: string)
    requires AllKept(s)
    ensures AllKept(Emit(s, endpoint, payload))
  {
    assert Kept(s, "");
    EmitKept(s, endpoint, payload, "");
    forall url ensures Kept(Emit(s, endpoint, payload), url) {
      assert Kept(s, url);
      EmitKept(s, endpoint, payload, url);
    }
  }

  lemma StepAllKept(s: State, e: Event)
    requires Inv(s) && AllKept(s)
    ensures AllKept(Step(s, e))
  {
    match e
    case EvEmit(endpoint, payload) => EmitAllKept(s, endpoint, payload);
    case EvTimer => WaitingAllKept(s, s.waiting + 1);
    case EvFlush => WaitingAllKept(s, s.waiting + 1);
    case EvDrainStart =>
      if s.waiting > 0 && s.drain.Idle? {
        WaitingAllKept(s, s.waiting - 1);
        AdvanceAllKept(s.(waiting := s.waiting - 1), Keys(s.buckets));
      }
    case EvPostDone => if s.drain.Posting? { AdvanceAllKept(s, [s.drain.url] + s.drain.todo); }
  }

  lemma {:induction false} RunAllKept(maxQueued: int, maxBatch: int, events: seq<Event>)
    ensures AllKept(Run(maxQueued, maxBatch, events))
  {
    if events == [] {
      forall url ensures Kept(Initial(maxQueued, maxBatch), url) {}
    } else {
      RunAllKept(maxQueued, maxBatch, Front(events));
      RunKeeps(maxQueued, maxBatch, Front(events));
      StepAllKept(Run(maxQueued, maxBatch, Front(events)), Last(events));
    }
  }

  // ---------------------------------------------------------------- the theorems

  /** Per endpoint, over every history: what was posted and what is buffered carry exactly the payloads
      offered and not shed, in order, among receipts of drops that carry the writer's own name. */
  lemma PayloadsArrive(maxQueued: int, maxBatch: int, events: seq<Event>, url: Url)
    ensures var s := Run(maxQueued, maxBatch, events);
            var all := PostedTo(s.trace, url) + Events(s.buckets, url);
            && Contents(all) == Accepted(s.trace, url)
            && forall k :: 0 <= k < |all| && all[k].dropCount > 0 ==> all[k].payload == "insula_writer"
  {
    RunLedger(maxQueued, maxBatch, events, url);
    RunAllKept(maxQueued, maxBatch, events);
    assert Kept(Run(maxQueued, maxBatch, events), url);
  }

  /** Every post goes out under the token given last with something enqueued for its endpoint: the token of
      an observation's own offer, or, for a receipt of drops, that of the latest offer it counts. */
  lemma TokensAreLatest(maxQueued: int, maxBatch: int, events: seq<Event>, k: nat)
    requires k < |Run(maxQueued, maxBatch, events).trace|
    ensures var t := Run(maxQueued, maxBatch, events).trace;
            match t[k]
            case Posted(url, token, _) => LastToken(t[..k], url) == Some(token)
            case Enqueued(url, token, o) =>
              if o.dropCount == 0 then k > 0 && t[k - 1] == Offered(url, token, o.payload)
              else ShedToken(t[..k], url) == Some(token)
            case _ => true
  {
    RunAllKept(maxQueued, maxBatch, events);
    assert RightToken(Run(maxQueued, maxBatch, events).trace, k);
  }

  // ---------------------------------------------------------------- when it sheds

  /** An offer is shed exactly when as much is buffered as may be; shed, it is counted unless its endpoint's
      counter stands at 10^9; taken, it is enqueued as it is, under the next number. */
  lemma ShedIff(maxQueued: int, maxBatch: int, events: seq<Event>, endpoint: Endpoint, payload: string)
    ensures var s := Run(maxQueued, maxBatch, events);
            var t := Emit(s, Some(endpoint), payload);
            var offered, count := Offered(endpoint.url, endpoint.token, payload), Count(s.drops, endpoint.url);
            if Total(s.buckets) >= s.maxQueued
            then
              && t.trace == s.trace + [offered] + [Shed(endpoint.url, count < 1_000_000_000)]
              && Count(t.drops, endpoint.url) == (if count < 1_000_000_000 then count + 1 else count)
              && t.buckets == s.buckets
            else
              && t.drops == s.drops && Total(t.buckets) == Total(s.buckets) + 1
              && t.trace == s.trace + [offered]
                 + [Enqueued(endpoint.url, endpoint.token, Observation(s.sequence + 1, payload, 0))]
  {
    var s := Run(maxQueued, maxBatch, events);
    RunKeeps(maxQueued, maxBatch, events);
    if s.queued >= s.maxQueued {
      CountFits(s.drops, endpoint.url);
      ShedCounts(Offer(s, endpoint, payload), endpoint);
    } else {
      OfferTaken(s, endpoint, payload);
    }
  }

  lemma OfferTaken(s: State, endpoint: Endpoint, payload: string)
    requires Accounts(s) && s.queued < s.maxQueued
    ensures var t := Enqueue(Offer(s, endpoint, payload), endpoint, payload, 0);
            && t.drops == s.drops && Total(t.buckets) == Total(s.buckets) + 1
            && t.trace == s.trace + [Offered(endpoint.url, endpoint.token, payload)]
               + [Enqueued(endpoint.url, endpoint.token, Observation(s.sequence + 1, payload, 0))]
  {
    EnqueueKeeps(Offer(s, endpoint, payload), endpoint, payload, 0);
  }

  lemma ShedCounts(s: State, endpoint: Endpoint)
    requires Count(s.drops, endpoint.url) <= 1_000_000_000
    ensures var t, count := Drop(s, endpoint), Count(s.drops, endpoint.url);
            && Count(t.drops, endpoint.url) == (if count < 1_000_000_000 then count + 1 else count)
            && t.trace == s.trace + [Shed(endpoint.url, count < 1_000_000_000)] && t.buckets == s.buckets
  {
    var count := Count(s.drops, endpoint.url);
    var d := Dropped(endpoint.token, if count + 1 < MAX_DROP_COUNT then count + 1 else MAX_DROP_COUNT);
    LookupPut(s.drops, endpoint.url, d, endpoint.url);
  }

  // ---------------------------------------------------------------- what it posts at once

  /** A post takes as much of what waits for its endpoint as a batch may hold. */
  predicate FullBatch(t: seq<Entry>, maxBatch: nat, k: nat)
    requires k < |t|
  {
    t[k].Posted? ==>
      var waiting := |EnqueuedTo(t[..k], t[k].url)| - |PostedTo(t[..k], t[k].url)|;
      |t[k].batch| == if waiting < maxBatch then waiting else maxBatch
  }

  ghost predicate FullBatches(s: State) {
    forall k: nat :: k < |s.trace| ==> FullBatch(s.trace, s.maxBatch, k)
  }

  lemma FullAppend(s: State, t: State, e: Entry)
    requires FullBatches(s) && t.trace == s.trace + [e] && t.maxBatch == s.maxBatch
    requires FullBatch(t.trace, t.maxBatch, |s.trace|)
    ensures FullBatches(t)
  {
    forall k: nat | k < |s.trace| ensures FullBatch(t.trace, t.maxBatch, k) {
      assert t.trace[..k] == s.trace[..k] && t.trace[k] == s.trace[k] && FullBatch(s.trace, s.maxBatch, k);
    }
  }

  lemma PostFull(s: State, to: Url, b: Bucket, todo: seq<Url>)
    requires FullBatches(s) && Fifo(s, to) && Lookup(s.buckets, to) == Some(b)
    ensures FullBatches(Post(s, to, b, todo))
  {
    var t := Post(s, to, b, todo);
    assert t.trace[..|s.trace|] == s.trace;
    FullAppend(s, t, Posted(to, b.token, b.events[..BatchSize(s.maxBatch, b.events)]));
  }

  lemma EnqueueFull(s: State, endpoint: Endpoint, payload: string, dropCount: nat)
    requires FullBatches(s)
    ensures FullBatches(Enqueue(s, endpoint, payload, dropCount))
  {
    var o := Observation(s.sequence + 1, payload, dropCount);
    FullAppend(s, Enqueue(s, endpoint, payload, dropCount), Enqueued(endpoint.url, endpoint.token, o));
  }

  lemma EmitFull(s: State, endpoint: Option<Endpoint>, payload: string)
    requires FullBatches(s)
    ensures FullBatches(Emit(s, endpoint, payload))
  {
    if endpoint.Some? {
      var t, url := Offer(s, endpoint.value, payload), endpoint.value.url;
      FullAppend(s, t, Offered(url, endpoint.value.token, payload));
      EnqueueFull(t, endpoint.value, payload, 0);
      FullAppend(t, Drop(t, endpoint.value), Shed(url, Count(s.drops, url) < MAX_DROP_COUNT));
    }
  }

  ghost predicate AllFifo(s: State) {
    forall url :: Ledger(s, url)
  }

  lemma SweepFifo(s: State, todo: seq<Url>)
    requires Accounts(s) && AllFifo(s)
    ensures AllFifo(Sweep(s, todo))
  {
    forall url ensures Ledger(Sweep(s, todo), url) {
      assert Ledger(s, url);
      SweepLedger(s, todo, url);
    }
  }

  lemma ReceiptFifo(s: State)
    requires Accounts(s) && AllFifo(s)
    ensures AllFifo(EmitNextDropReceipt(s).1)
  {
    forall url ensures Ledger(EmitNextDropReceipt(s).1, url) {
      assert Ledger(s, url);
      ReceiptLedger(s, url);
    }
  }

  lemma EmptyFifo(s: State, gone: Url)
    requires Accounts(s) && AllFifo(s) && Events(s.buckets, gone) == []
    ensures AllFifo(s.(buckets := Delete(s.buckets, gone)))
  {
    var t := s.(buckets := Delete(s.buckets, gone));
    forall url ensures Ledger(t, url) {
      assert Ledger(s, url);
      LookupDelete(s.buckets, gone, url);
    }
  }

  lemma {:induction false} SweepFull(s: State, todo: seq<Url>)
    requires Accounts(s) && AllFifo(s) && FullBatches(s)
    ensures FullBatches(Sweep(s, todo))
    decreases |todo|
  {
    if todo != [] {
      var b := Lookup(s.buckets, todo[0]);
      if b.None? {
        SweepFull(s, todo[1..]);
      } else if b.value.events != [] {
        assert Ledger(s, todo[0]);
        PostFull(s, todo[0], b.value, todo[1..]);
      } else {
        TotalDelete(s.buckets, todo[0]);
        DeleteDistinct(s.buckets, todo[0]);
        EmptyFifo(s, todo[0]);
        SweepFull(s.(buckets := Delete(s.buckets, todo[0])), todo[1..]);
      }
    }
  }

  lemma ReceiptFull(s: State)
    requires Accounts(s) && FullBatches(s)
    ensures FullBatches(EmitNextDropReceipt(s).1)
  {
    if s.drops != [] {
      var next, t := s.drops[0], s.(drops := s.drops[1..]);
      EnqueueFull(t, Endpoint(next.key, next.value.token), WRITER_OPERATION, next.value.count);
    }
  }

  lemma AdvanceFull(s: State, todo: seq<Url>)
    requires Accounts(s) && AllFifo(s) && FullBatches(s)
    ensures FullBatches(Advance(s, todo))
  {
    var t := Sweep(s, todo);
    SweepAccounts(s, todo);
    SweepFifo(s, todo);
    SweepFull(s, todo);
    if t.drain.Posting? {
    } else if t.queued > 0 {
      SweepFull(t, Keys(t.buckets));
    } else {
      var r := EmitNextDropReceipt(t);
      ReceiptEmitted(t);
      ReceiptFifo(t);
      ReceiptFull(t);
      if r.0 { SweepFull(r.1, Keys(r.1.buckets)); }
    }
  }

  lemma WaitingFifo(s: State)
    requires AllFifo(s) && s.waiting > 0
    ensures AllFifo(s.(waiting := s.waiting - 1))
  {
    var t := s.(waiting := s.waiting - 1);
    forall url ensures Ledger(t, url) { assert Ledger(s, url); }
  }

  lemma StepFull(s: State, e: Event)
    requires Inv(s) && AllFifo(s) && FullBatches(s)
    ensures FullBatches(Step(s, e))
  {
    match e
    case EvEmit(endpoint, payload) => EmitFull(s, endpoint, payload);
    case EvTimer =>
    case EvFlush =>
    case EvDrainStart =>
      if s.waiting > 0 && s.drain.Idle? {
        WaitingFifo(s);
        AdvanceFull(s.(waiting := s.waiting - 1), Keys(s.buckets));
      }
    case EvPostDone => if s.drain.Posting? { AdvanceFull(s, [s.drain.url] + s.drain.todo); }
  }

  /** Over every history: no post leaves back what its batch had room for. */
  lemma {:induction false} BatchesAreFull(maxQueued: int, maxBatch: int, events: seq<Event>)
    ensures FullBatches(Run(maxQueued, maxBatch, events))
  {
    if events != [] {
      var s := Run(maxQueued, maxBatch, Front(events));
      BatchesAreFull(maxQueued, maxBatch, Front(events));
      RunKeeps(maxQueued, maxBatch, Front(events));
      forall url ensures Ledger(s, url) { RunLedger(maxQueued, maxBatch, Front(events), url); }
      StepFull(s, Last(events));
    }
  }

  // ---------------------------------------------------------------- when it drains

  /** A batch that is full waits for no timer. */
  ghost predicate Prompt(s: State) {
    s.queued >= s.maxBatch ==> s.waiting > 0 || s.drain.Posting?
  }

  lemma StepPrompt(s: State, e: Event)
    requires Inv(s) && Prompt(s)
    ensures Prompt(Step(s, e))
  {
    match e
    case EvEmit(_, _) =>
    case EvTimer =>
    case EvFlush =>
    case EvDrainStart =>
      if s.waiting > 0 && s.drain.Idle? { AdvanceProgress(s.(waiting := s.waiting - 1), Keys(s.buckets)); }
    case EvPostDone => if s.drain.Posting? { AdvanceProgress(s, [s.drain.url] + s.drain.todo); }
  }

  /** Over every history: once a batch is full a drain is under way or due at once. */
  lemma {:induction false} FullIsPrompt(maxQueued: int, maxBatch: int, events: seq<Event>)
    ensures Prompt(Run(maxQueued, maxBatch, events))
  {
    if events != [] {
      FullIsPrompt(maxQueued, maxBatch, Front(events));
      RunKeeps(maxQueued, maxBatch, Front(events));
      StepPrompt(Run(maxQueued, maxBatch, Front(events)), Last(events));
    }
  }
}
