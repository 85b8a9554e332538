/** The telemetry writer itself, updated in place.  `#drain` is cut at its await: `OnDrainStart` and
    `OnPostEnd` each run the loop from one suspension to the next. */
module InsulaWriterClass {
  import opened Basics
  import opened InsertionOrder
  import opened InsulaModel
  import opened InsulaTheorems

  class InsulaWriter {
    const maxQueued: nat
    const maxBatch: nat
    var sequence: nat
    var buckets: Buckets
    var queued: int
    var droppedByEndpoint: Drops
    var timer: bool
    var waiting: nat
    var drain: Drain
    ghost var trace: seq<Entry>

    ghost function Snapshot(): State
      reads this
    {
      State(maxQueued, maxBatch, sequence, buckets, queued, droppedByEndpoint, timer, waiting, drain, trace)
    }

    ghost predicate Valid()
      reads this
    {
      Inv(Snapshot())
    }

    constructor (maxQueued: int, maxBatch: int)
      ensures Valid() && Snapshot() == Initial(maxQueued, maxBatch)
    {
      var sizes := Clamp(maxQueued, maxBatch);
      this.maxQueued, this.maxBatch := sizes.0, sizes.1;
      sequence, buckets, queued, droppedByEndpoint := 0, [], 0, [];
      timer, waiting, drain, trace := false, 0, Idle, [];
    }

    // -------------------------------------------------------------- arrivals

    method Emit(endpoint: Option<Endpoint>, payload: string)
      requires Valid()
      modifies this
      ensures Valid() && Snapshot() == InsulaModel.Emit(old(Snapshot()), endpoint, payload)
      ensures endpoint.Some? && old(queued) < maxQueued ==>
                var to, event := endpoint.value, Observation(old(sequence) + 1, payload, 0);
                trace == old(trace) + [Offered(to.url, to.token, payload), Enqueued(to.url, to.token, event)]
    {
      EmitKeeps(Snapshot(), endpoint, payload);
      if endpoint.None? {
        return;
      }
      trace := trace + [Offered(endpoint.value.url, endpoint.value.token, payload)];
      if queued >= maxQueued {
        Shedding(endpoint.value);
        return;
      }
      Enqueue(endpoint.value, payload, 0);
    }

    method Shedding(endpoint: Endpoint)
      modifies `droppedByEndpoint, `trace
      ensures Snapshot() == Drop(old(Snapshot()), endpoint)
    {
      var known := Lookup(droppedByEndpoint, endpoint.url);
      var count := if known.Some? then known.value.count else 0;
      var grown := if count + 1 < MAX_DROP_COUNT then count + 1 else MAX_DROP_COUNT;
      droppedByEndpoint := Put(droppedByEndpoint, endpoint.url, Dropped(endpoint.token, grown));
      trace := trace + [Shed(endpoint.url, count < MAX_DROP_COUNT)];
    }

    method Enqueue(endpoint: Endpoint, payload: string, dropCount: nat)
      modifies this
      ensures Snapshot() == InsulaModel.Enqueue(old(Snapshot()), endpoint, payload, dropCount)
      ensures var event := Observation(old(sequence) + 1, payload, dropCount);
              trace == old(trace) + [Enqueued(endpoint.url, endpoint.token, event)]
    {
      var found := Lookup(buckets, endpoint.url);
      var bucket := if found.Some? then found.value else Bucket(endpoint.token, []);
      sequence := sequence + 1;
      var event := Observation(sequence, payload, dropCount);
      buckets := Put(buckets, endpoint.url, Bucket(endpoint.token, bucket.events + [event]));
      queued := queued + 1;
      trace := trace + [Enqueued(endpoint.url, endpoint.token, event)];
      if queued >= maxBatch {
        Flush();
      } else {
        Schedule();
      }
    }

    method Flush()
      modifies `timer, `waiting
      ensures Snapshot() == InsulaModel.Flush(old(Snapshot()))
    {
      ClearTimer();
      waiting := waiting + 1;
    }

    method Schedule()
      modifies `timer
      ensures timer
    {
      if timer {
        return;
      }
      timer := true;
    }

    method ClearTimer()
      modifies `timer
      ensures !timer
    {
      if !timer {
        return;
      }
      timer := false;
    }

    method OnTimer()
      requires Valid()
      modifies `timer, `waiting
      ensures Valid() && Snapshot() == TimerFired(old(Snapshot()))
    {
      if timer {
        timer := false;
        Flush();
      }
    }

    // -------------------------------------------------------------- the drain

    method EmitNextDropReceipt() returns (emitted: bool)
      modifies this
      ensures (emitted, Snapshot()) == InsulaModel.EmitNextDropReceipt(old(Snapshot()))
      decreases |droppedByEndpoint|
    {
      if droppedByEndpoint == [] {
        return false;
      }
      var next := droppedByEndpoint[0];
      droppedByEndpoint := droppedByEndpoint[1..];
      if next.value.count <= 0 {
        emitted := EmitNextDropReceipt();
        return;
      }
      Enqueue(Endpoint(next.key, next.value.token), WRITER_OPERATION, next.value.count);
      return true;
    }

    /** Splices off a batch and hands it to the transport. */
    method SendBatch(url: Url, bucket: Bucket, todo: seq<Url>)
      modifies this
      ensures Snapshot() == Post(old(Snapshot()), url, bucket, todo)
    {
      var n := BatchSize(maxBatch, bucket.events);
      buckets := Put(buckets, url, bucket.(events := bucket.events[n..]));
      queued := if queued < n then 0 else queued - n;
      drain := Posting(url, todo);
      trace := trace + [Posted(url, bucket.token, bucket.events[..n])];
    }

    /** One pass over a snapshot of the endpoints, until a post suspends it. */
    method Pass(todo: seq<Url>) returns (posting: bool)
      modifies this
      ensures Snapshot() == Sweep(old(Snapshot()), todo) && posting == drain.Posting?
    {
      var i := 0;
      while i < |todo|
        invariant i <= |todo|
        invariant Sweep(Snapshot(), todo[i..]) == Sweep(old(Snapshot()), todo)
      {
        var bucket := Lookup(buckets, todo[i]);
        assert todo[i..][0] == todo[i] && todo[i..][1..] == todo[i + 1..];
        if bucket.Some? {
          if bucket.value.events != [] {
            SendBatch(todo[i], bucket.value, todo[i + 1..]);
            return true;
          }
          buckets := Delete(buckets, todo[i]);
        }
        i := i + 1;
      }
      drain := Idle;
      return false;
    }

    /** The drain from one suspension to the next, or to its end. */
    method Resume(first: seq<Url>)
      requires Accounts(Snapshot())
      modifies this
      ensures Snapshot() == Advance(old(Snapshot()), first)
    {
      var todo, again := first, false;
      while true
        invariant Accounts(Snapshot())
        invariant Advance(Snapshot(), todo) == Advance(old(Snapshot()), first)
        invariant again ==> todo == Keys(buckets)
        decreases |droppedByEndpoint|, if again then 0 else 1
      {
        ghost var before := Snapshot();
        SweepAccounts(before, todo);
        if again && before.queued > 0 { PassPosts(before); }
        var posting := Pass(todo);
        if posting {
          return;
        }
        ghost var swept := Snapshot();
        if queued > 0 {
          PassPosts(swept);
        } else {
          ReceiptEmitted(swept);
          var emitted := EmitNextDropReceipt();
          if !emitted {
            break;
          }
          PassPosts(Snapshot());
        }
        todo, again := Keys(buckets), true;
      }
      ClearTimer();
    }

    method OnDrainStart()
      requires Valid()
      modifies this
      ensures Valid() && Snapshot() == DrainStart(old(Snapshot()))
    {
      DrainStartKeeps(Snapshot());
      if waiting == 0 || drain.Posting? {
        return;
      }
      TakeTurn();
      Resume(Keys(buckets));
    }

    method TakeTurn()
      requires waiting > 0
      modifies `waiting
      ensures Snapshot() == old(Snapshot()).(waiting := old(waiting) - 1)
    {
      waiting := waiting - 1;
    }

    method OnPostEnd()
      requires Valid()
      modifies this
      ensures Valid() && Snapshot() == PostDone(old(Snapshot()))
    {
      PostDoneProgress(Snapshot());
      match drain
      case Idle =>
      case Posting(url, todo) => Resume([url] + todo);
    }
  }
}
