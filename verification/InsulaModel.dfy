/** The telemetry writer as a value: ordered buckets per endpoint, one shared bound, drop counters
    per endpoint, one sequence counter, and a serialised drain suspended at every post.

    `trace` records what was offered, shed, enqueued and posted.  A drain is never two at a time:
    calls to flush wait in a chain, `waiting` long, behind the one that runs. */
module InsulaModel {
  import opened Basics
  import opened InsertionOrder

  const MAX_BATCH_EVENTS := 128
  const MAX_DROP_COUNT := 1_000_000_000
  const WRITER_OPERATION := "insula_writer"

  type Url = string

  datatype Endpoint = Endpoint(url: Url, token: string)

  /** `dropCount` is positive on drop receipts only. */
  datatype Observation = Observation(sequence: nat, payload: string, dropCount: nat)

  datatype Bucket = Bucket(token: string, events: seq<Observation>)

  datatype Dropped = Dropped(token: string, count: nat)

  /** Suspended in the post of a batch for `url`, with the endpoints left in this pass. */
  datatype Drain = Idle | Posting(url: Url, todo: seq<Url>)

  datatype Entry =
    | Offered(url: Url, token: string, payload: string)
    | Shed(url: Url, counted: bool)
    | Enqueued(url: Url, token: string, event: Observation)
    | Posted(url: Url, token: string, batch: seq<Observation>)

  type Buckets = seq<Pair<Url, Bucket>>
  type Drops = seq<Pair<Url, Dropped>>

  datatype State = State(
    maxQueued: nat,
    maxBatch: nat,
    sequence: nat,
    buckets: Buckets,
    queued: int,
    drops: Drops,
    timer: bool,
    waiting: nat,
    drain: Drain,
    trace: seq<Entry>)

  function Clamp(maxQueued: int, maxBatch: int): (r: (nat, nat))
    ensures 1 <= r.0 && 1 <= r.1 <= MAX_BATCH_EVENTS
    ensures (maxQueued >= 1 ==> r.0 == maxQueued) && (1 <= maxBatch <= 128 ==> r.1 == maxBatch)
    ensures maxBatch > 128 ==> r.1 == 128
  {
    (if maxQueued < 1 then 1 else maxQueued,
     if maxBatch < 1 then 1 else if maxBatch > MAX_BATCH_EVENTS then MAX_BATCH_EVENTS else maxBatch)
  }

  function Initial(maxQueued: int, maxBatch: int): State {
    var sizes := Clamp(maxQueued, maxBatch);
    State(sizes.0, sizes.1, 0, [], 0, [], false, 0, Idle, [])
  }

  // ---------------------------------------------------------------- arrivals

  function BucketAt(buckets: Buckets, endpoint: Endpoint): Bucket {
    match Lookup(buckets, endpoint.url)
    case Some(b) => b.(token := endpoint.token)
    case None => Bucket(endpoint.token, [])
  }

  function Events(buckets: Buckets, url: Url): seq<Observation> {
    var b := Lookup(buckets, url);
    if b.Some? then b.value.events else []
  }

  function Push(s: State, endpoint: Endpoint, o: Observation): State {
    var b := BucketAt(s.buckets, endpoint);
    s.(buckets := Put(s.buckets, endpoint.url, b.(events := b.events + [o])),
       sequence := s.sequence + 1, queued := s.queued + 1,
       trace := s.trace + [Enqueued(endpoint.url, endpoint.token, o)])
  }

  function Flush(s: State): State {
    s.(timer := false, waiting := s.waiting + 1)
  }

  function Enqueue(s: State, endpoint: Endpoint, payload: string, dropCount: nat): State {
    var t := Push(s, endpoint, Observation(s.sequence + 1, payload, dropCount));
    if t.queued >= t.maxBatch then Flush(t) else t.(timer := true)
  }

  function Count(drops: Drops, url: Url): nat {
    var d := Lookup(drops, url);
    if d.Some? then d.value.count else 0
  }

  function Drop(s: State, endpoint: Endpoint): State {
    var count := Count(s.drops, endpoint.url);
    var grown := if count + 1 < MAX_DROP_COUNT then count + 1 else MAX_DROP_COUNT;
    s.(drops := Put(s.drops, endpoint.url, Dropped(endpoint.token, grown)),
       trace := s.trace + [Shed(endpoint.url, count < MAX_DROP_COUNT)])
  }

  function Offer(s: State, endpoint: Endpoint, payload: string): State {
    s.(trace := s.trace + [Offered(endpoint.url, endpoint.token, payload)])
  }

  function Emit(s: State, endpoint: Option<Endpoint>, payload: string): State {
    if endpoint.None? then s
    else if s.queued >= s.maxQueued then Drop(Offer(s, endpoint.value, payload), endpoint.value)
    else Enqueue(Offer(s, endpoint.value, payload), endpoint.value, payload, 0)
  }

  function TimerFired(s: State): State {
    if s.timer then Flush(s) else s
  }

  // ---------------------------------------------------------------- the drain

  /** Takes one drop counter, the oldest, and enqueues its receipt. */
  function EmitNextDropReceipt(s: State): (r: (bool, State))
    decreases |s.drops|
  {
    if s.drops == [] then (false, s)
    else
      var next, t := s.drops[0], s.(drops := s.drops[1..]);
      if next.value.count <= 0 then EmitNextDropReceipt(t)
      else (true, Enqueue(t, Endpoint(next.key, next.value.token), WRITER_OPERATION, next.value.count))
  }

  function BatchSize(maxBatch: nat, events: seq<Observation>): nat {
    if |events| < maxBatch then |events| else maxBatch
  }

  /** Splices the next batch off a bucket and suspends in its post. */
  function Post(s: State, url: Url, b: Bucket, todo: seq<Url>): State {
    var n := BatchSize(s.maxBatch, b.events);
    s.(buckets := Put(s.buckets, url, b.(events := b.events[n..])),
       queued := if s.queued < n then 0 else s.queued - n,
       drain := Posting(url, todo),
       trace := s.trace + [Posted(url, b.token, b.events[..n])])
  }

  /** The pass over a snapshot of the endpoints, up to its next post. */
  function Sweep(s: State, todo: seq<Url>): State
    decreases |todo|
  {
    if todo == [] then s.(drain := Idle)
    else
      match Lookup(s.buckets, todo[0])
      case None => Sweep(s, todo[1..])
      case Some(b) =>
        if b.events != [] then Post(s, todo[0], b, todo[1..])
        else Sweep(s.(buckets := Delete(s.buckets, todo[0])), todo[1..])
  }

  function Receipt(s: State): State {
    var r := EmitNextDropReceipt(s);
    if r.0 then Sweep(r.1, Keys(r.1.buckets)) else r.1.(timer := false)
  }

  /** The drain from a point between two posts to its next post or its end.  A pass that leaves
      something queued is followed by another, which always posts (see `PassPosts`). */
  function Advance(s: State, todo: seq<Url>): State {
    var t := Sweep(s, todo);
    if t.drain.Posting? then t
    else if t.queued > 0 then Sweep(t, Keys(t.buckets))
    else Receipt(t)
  }

  function DrainStart(s: State): State {
    if s.waiting == 0 || s.drain.Posting? then s
    else
      var t := s.(waiting := s.waiting - 1);
      Advance(t, Keys(t.buckets))
  }

  /** The post ended, well or not: what was sent is never sent again. */
  function PostDone(s: State): State {
    match s.drain
    case Idle => s
    case Posting(url, todo) => Advance(s, [url] + todo)
  }

  // ---------------------------------------------------------------- histories

  datatype Event =
    | EvEmit(endpoint: Option<Endpoint>, payload: string)
    | EvTimer
    | EvFlush
    | EvDrainStart
    | EvPostDone

  function Step(s: State, e: Event): State {
    match e
    case EvEmit(endpoint, payload) => Emit(s, endpoint, payload)
    case EvTimer => TimerFired(s)
    case EvFlush => Flush(s)
    case EvDrainStart => DrainStart(s)
    case EvPostDone => PostDone(s)
  }

  function Run(maxQueued: int, maxBatch: int, events: seq<Event>): State {
    if events == [] then Initial(maxQueued, maxBatch)
    else Step(Run(maxQueued, maxBatch, Front(events)), Last(events))
  }

  // ---------------------------------------------------------------- the trace, per endpoint

  function OfferedTo(t: seq<Entry>, url: Url): nat {
    if t == [] then 0 else OfferedTo(Front(t), url) + if Last(t).Offered? && Last(t).url == url then 1 else 0
  }

  /** Sheddings the counter had no room for. */
  function Uncounted(t: seq<Entry>, url: Url): nat {
    if t == [] then 0 else Uncounted(Front(t), url) + if Last(t) == Shed(url, false) then 1 else 0
  }

  function EnqueuedTo(t: seq<Entry>, url: Url): seq<Observation> {
    if t == [] then []
    else if Last(t).Enqueued? && Last(t).url == url then EnqueuedTo(Front(t), url) + [Last(t).event]
    else EnqueuedTo(Front(t), url)
  }

  function PostedTo(t: seq<Entry>, url: Url): seq<Observation> {
    if t == [] then []
    else if Last(t).Posted? && Last(t).url == url then PostedTo(Front(t), url) + Last(t).batch
    else PostedTo(Front(t), url)
  }

  /** Everything enqueued, to whichever endpoint. */
  function AllEnqueued(t: seq<Entry>): seq<Observation> {
    if t == [] then []
    else if Last(t).Enqueued? then AllEnqueued(Front(t)) + [Last(t).event]
    else AllEnqueued(Front(t))
  }

  /** How many offered observations an event stands for. */
  function Weight(o: Observation): nat {
    if o.dropCount == 0 then 1 else o.dropCount
  }

  function TotalWeight(events: seq<Observation>): nat {
    if events == [] then 0 else TotalWeight(Front(events)) + Weight(Last(events))
  }
}
