/** Theorems over whole histories of the transport: the trace is told truly, framing follows the
    byte stream, and poisoning is the end. */
module TransportRuns {
  import opened Basics
  import opened TransportTypes
  import opened TransportLog
  import opened TransportModel
  import opened TransportInvariant
  import opened TransportChunking
  import opened Framing

  /** The audit the state carries along is the audit of the trace. */
  ghost predicate Audited(s: State) {
    s.audit == AuditOf(s.trace)
  }

  /** The lines taken off stdout, in order. */
  function Heard(t: seq<Entry>): seq<Bytes> {
    if t == [] then []
    else if Last(t).Received? then Heard(Front(t)) + [Last(t).line]
    else Heard(Front(t))
  }

  lemma HeardAppend(t: seq<Entry>, e: Entry)
    ensures Heard(t + [e]) == if e.Received? then Heard(t) + [e.line] else Heard(t)
  {
    Snoc(t, e);
  }

  ghost predicate TooLong(s: State) {
    s.failure.Some? && s.failure.value.code.OutputTooLarge?
  }

  // ---------------------------------------------------------------- what leaves framing alone

  /** Nothing read, and poisoned, if at all, for a reason other than size. */
  ghost predicate Quiet(s: State, t: State) {
    && (Audited(s) ==> Audited(t))
    && s.trace <= t.trace
    && t.buffer == s.buffer
    && Heard(t.trace) == Heard(s.trace)
    && (s.cleaned ==> t.cleaned)
    && (!t.cleaned ==> t.failure == s.failure)
    && (TooLong(t) ==> TooLong(s))
  }

  lemma QuietSame(s: State, t: State)
    requires t.trace == s.trace && t.audit == s.audit
    requires t.buffer == s.buffer && t.cleaned == s.cleaned && t.failure == s.failure
    ensures Quiet(s, t)
  {
  }

  lemma QuietNote(s: State, t: State, e: Entry)
    requires t.trace == s.trace + [e] && t.audit == Note(s.audit, e) && !e.Received?
    requires t.buffer == s.buffer && t.cleaned == s.cleaned && t.failure == s.failure
    ensures Quiet(s, t)
  {
    AuditAppend(s.trace, e);
    HeardAppend(s.trace, e);
  }

  lemma QuietInvalidate(s: State, failure: Failure)
    requires !failure.code.OutputTooLarge?
    ensures Quiet(s, Invalidate(s, failure))
  {
    if !s.cleaned {
      var e := Poisoned(failure.code, Rejections(s.pending, failure));
      AuditAppend(s.trace, e);
      HeardAppend(s.trace, e);
    }
  }

  lemma QuietFlush(s: State, w: WriteResult)
    ensures Quiet(s, Flush(s, w))
  {
    if CanWrite(s) {
      var d := Dispatch(s);
      QuietNote(s, d, Wrote(s.queue[0].id));
      QuietInvalidate(d.(writing := false, inFlight := 0), FailureOf(RequestWriteFailed));
    }
  }

  lemma QuietWriteDone(s: State, ok: bool, w: WriteResult)
    ensures Quiet(s, WriteDone(s, ok, w))
  {
    QuietSame(s, Landed(s, ok));
    if ok { QuietFlush(Landed(s, ok), w); } else { QuietInvalidate(Landed(s, ok), FailureOf(RequestWriteFailed)); }
  }

  lemma QuietTurnAway(s: State, o: Outcome)
    ensures Quiet(s, TurnAway(s, o))
  {
    QuietNote(s.(nextId := s.nextId + 1), TurnAway(s, o), Settled(s.nextId, o));
  }

  lemma QuietAccept(s: State, r: RequestArgs)
    requires r.body.Some?
    ensures Quiet(s, Accept(s, r))
  {
    QuietNote(s, Register(s, r), Accepted(s.nextId, r.definitive));
    QuietInvalidate(Register(s, r), FailureOf(SpawnFailed));
    QuietFlush(Admit(s, r), r.write);
  }

  lemma QuietRequest(s: State, r: RequestArgs)
    ensures Quiet(s, Request(s, r))
  {
    if s.failure.Some? {
      QuietTurnAway(s, UnavailableAfterFailure(s, r.definitive));
    } else if Refusal(s, r).Some? {
      QuietTurnAway(s, UnavailableFor(Fresh(r.definitive, false), FailureOf(Refusal(s, r).value)));
    } else {
      QuietAccept(s, r);
    }
  }

  lemma QuietSettle(s: State, id: nat, o: Outcome)
    ensures Quiet(s, Settle(s, id, o))
  {
    QuietNote(s, Settle(s, id, o), Settled(id, o));
  }

  lemma QuietCancel(s: State, id: nat, o: Outcome, w: WriteResult)
    ensures Quiet(s, CancelQueued(s, id, o, w))
  {
    var i := IndexOf(s.queue, id);
    if i < |s.queue| {
      QuietSettle(Unqueue(s, i), s.queue[i].id, o);
      QuietFlush(Withdraw(s, i, o), w);
    }
  }

  lemma QuietAbandon(s: State, id: nat, failure: Failure)
    ensures Quiet(s, Abandon(s, id, failure))
  {
    if id in s.pending {
      QuietSettle(s.(abandoned := Remember(s.abandoned, id)), id, UnavailableFor(s.pending[id], failure));
    }
  }

  lemma QuietAbort(s: State, id: nat, w: WriteResult)
    ensures Quiet(s, Abort(s, id, w))
  {
    if id in s.pending {
      var failure := FailureOf(RequestCancelled);
      QuietCancel(s, id, UnavailableFor(s.pending[id], failure), w);
      QuietAbandon(s, id, failure);
      QuietInvalidate(s, failure);
    }
  }

  lemma QuietTimedOut(s: State, id: nat, w: WriteResult)
    ensures Quiet(s, TimedOut(s, id, w))
  {
    if id in s.pending {
      var failure := FailureOf(RequestTimeout);
      QuietCancel(s, id, UnavailableFor(s.pending[id], failure), w);
      QuietInvalidate(s, failure);
    }
  }

  lemma QuietSpawned(s: State)
    ensures Quiet(s, Spawned(s))
  {
    if s.child && !s.spawnFailed { QuietNote(s, Spawned(s), Started); }
  }

  lemma QuietChildError(s: State)
    ensures Quiet(s, ChildError(s))
  {
    QuietSame(s, Recalled(s));
    QuietInvalidate(if s.childStarted then s else Recalled(s), FailureOf(SpawnFailed));
  }

  lemma QuietChildClose(s: State)
    ensures Quiet(s, ChildClose(s))
  {
    QuietSame(s, Gone(s));
    QuietInvalidate(Gone(s), FailureOf(ChildExited));
  }

  lemma QuietClose(s: State)
    ensures Quiet(s, Close(s))
  {
    if s.closing.NotRequested? {
      if !s.child || s.childClosed {
        QuietInvalidate(s, FailureOf(Closed));
      } else {
        QuietInvalidate(s.(closing := Waiting), FailureOf(Closed));
      }
    }
  }

  lemma QuietDrain(s: State, w: WriteResult)
    ensures Quiet(s, Drained(s, w))
  {
    QuietFlush(s.(blocked := false), w);
  }

  lemma QuietDeadline(s: State)
    ensures Quiet(s, ShutdownDeadline(s))
  {
    QuietSame(s, s);
    if s.closing.Waiting? { QuietSame(s, s.(closing := DeadlineMissed)); }
  }

  lemma QuietStep(parse: Parser, s: State, e: Event)
    requires !e.EvStdout?
    ensures Quiet(s, Step(parse, s, e))
  {
    QuietSame(s, s);
    match e
    case EvRequest(r) => QuietRequest(s, r);
    case EvWriteDone(ok, w) => QuietWriteDone(s, ok, w);
    case EvDrain(w) => QuietDrain(s, w);
    case EvAbort(id, w) => QuietAbort(s, id, w);
    case EvTimeout(id, w) => QuietTimedOut(s, id, w);
    case EvSpawned => QuietSpawned(s);
    case EvChildError => QuietChildError(s);
    case EvChildClose => QuietChildClose(s);
    case EvStdinError => QuietInvalidate(s, FailureOf(RequestWriteFailed));
    case EvStdoutError => QuietInvalidate(s, FailureOf(ResponseReadFailed));
    case EvClose => QuietClose(s);
    case EvShutdownDeadline => QuietDeadline(s);
  }

  // ---------------------------------------------------------------- what reading does

  lemma QuietAnswer(s: State, id: nat, body: Body)
    requires id in s.pending
    ensures Quiet(s, Answer(s, id, body))
  {
    match body
    case Ambiguous => QuietInvalidate(s, FailureOf(AmbiguousResponse));
    case BadError => QuietInvalidate(s, FailureOf(InvalidStructuredError));
    case StructuredError(e, retryable) => QuietSettle(s, id, WorkerErrorFor(s.pending[id], e, retryable));
    case Value(v) => QuietSettle(s, id, Resolved(v));
  }

  lemma QuietRespond(s: State, reply: Reply)
    ensures Quiet(s, Respond(s, reply))
  {
    if !reply.Envelope? {
      QuietInvalidate(s, FailureOf(EnvelopeFault(reply)));
    } else if reply.id in s.pending {
      QuietAnswer(s, reply.id, reply.body);
    } else if reply.id in s.abandoned {
    } else {
      QuietInvalidate(s, FailureOf(UnknownResponseId));
    }
  }

  /** A line handed on is heard once, and never poisons for size. */
  lemma HandleLineHears(parse: Parser, s: State, line: Bytes)
    requires !s.cleaned && s.failure.None?
    ensures var t := HandleLine(parse, s, line);
            && (Audited(s) ==> Audited(t)) && s.trace <= t.trace
            && Heard(t.trace) == Heard(s.trace) + [line]
            && !TooLong(t) && (!t.cleaned ==> t.failure.None?)
  {
    var reply := parse(StripCarriageReturn(line));
    AuditAppend(s.trace, Received(line, reply));
    HeardAppend(s.trace, Received(line, reply));
    QuietRespond(Take(s, line, reply), reply);
  }

  lemma SizePoison(s: State)
    requires !s.cleaned
    ensures var t := Poison(s, OutputTooLarge);
            && (Audited(s) ==> Audited(t)) && s.trace <= t.trace
            && Heard(t.trace) == Heard(s.trace) && t.cleaned && TooLong(t)
  {
    var e := Poisoned(OutputTooLarge, Rejections(s.pending, FailureOf(OutputTooLarge)));
    AuditAppend(s.trace, e);
    HeardAppend(s.trace, e);
  }

  /** The n-th of the lines, or the trailing one. */
  function Nth(lines: seq<Bytes>, rest: Bytes, n: nat): Bytes
    requires n <= |lines|
  {
    if n < |lines| then lines[n] else rest
  }

  /** The first `n` lines are handed on.  Then the stream is used up, or the next line is too long
      and poisons for size, or the last line handed on poisoned for what it says. */
  ghost predicate Delivered(s: State, t: State, lines: seq<Bytes>, rest: Bytes, n: nat) {
    && n <= |lines|
    && s.trace <= t.trace
    && Heard(t.trace) == Heard(s.trace) + lines[..n]
    && (forall k :: 0 <= k < n ==> |lines[k]| <= 1_048_576)
    && (TooLong(t) ==> |Nth(lines, rest, n)| > 1_048_576)
    && (!t.cleaned ==> n == |lines| && |rest| <= 1_048_576)
    && (t.cleaned && !TooLong(t) ==> n > 0)
  }

  lemma LineHandled(parse: Parser, s: State, line: Bytes)
    requires !s.cleaned && s.failure.None? && |line| <= MAX_STDOUT_LINE_BYTES
    ensures var t := DeliverLine(parse, s, line);
            && (Audited(s) ==> Audited(t)) && Heard(t.trace) == Heard(s.trace) + [line] && !TooLong(t)
            && s.trace <= t.trace && (!t.cleaned ==> t.failure.None?)
  {
    HandleLineHears(parse, s, line);
  }

  lemma EndDelivered(s: State, rest: Bytes)
    requires !s.cleaned && s.failure.None?
    ensures var t := if |rest| > MAX_STDOUT_LINE_BYTES then Poison(s, OutputTooLarge) else s;
            Delivered(s, t, [], rest, 0) && (Audited(s) ==> Audited(t))
  {
    if |rest| > MAX_STDOUT_LINE_BYTES { SizePoison(s); }
  }

  lemma SizeDelivered(s: State, lines: seq<Bytes>, rest: Bytes)
    requires !s.cleaned && lines != [] && |lines[0]| > MAX_STDOUT_LINE_BYTES
    ensures Delivered(s, Poison(s, OutputTooLarge), lines, rest, 0)
    ensures Audited(s) ==> Audited(Poison(s, OutputTooLarge))
  {
    SizePoison(s);
  }

  lemma OneDelivered(s: State, t: State, lines: seq<Bytes>, rest: Bytes)
    requires lines != [] && |lines[0]| <= MAX_STDOUT_LINE_BYTES && t.cleaned && !TooLong(t)
    requires Heard(t.trace) == Heard(s.trace) + [lines[0]] && s.trace <= t.trace
    ensures Delivered(s, t, lines, rest, 1)
  {
    assert lines[..1] == [lines[0]];
  }

  lemma DeliveredNext(s: State, t: State, u: State, lines: seq<Bytes>, rest: Bytes, n: nat)
    requires lines != [] && |lines[0]| <= MAX_STDOUT_LINE_BYTES
    requires Heard(t.trace) == Heard(s.trace) + [lines[0]] && s.trace <= t.trace
    requires Delivered(t, u, lines[1..], rest, n)
    ensures Delivered(s, u, lines, rest, n + 1)
  {
    assert lines[..n + 1] == [lines[0]] + lines[1..][..n];
    forall k | 0 <= k < n + 1 ensures |lines[k]| <= MAX_STDOUT_LINE_BYTES {
      if k > 0 { assert lines[1..][k - 1] == lines[k]; }
    }
  }

  lemma {:induction false} DeliverHears(parse: Parser, s: State, lines: seq<Bytes>, rest: Bytes) returns (n: nat)
    requires !s.cleaned && s.failure.None?
    ensures Delivered(s, Deliver(parse, s, lines, rest), lines, rest, n)
    ensures Audited(s) ==> Audited(Deliver(parse, s, lines, rest))
    decreases |lines|
  {
    n := 0;
    if lines == [] {
      EndDelivered(s, rest);
    } else if |lines[0]| > MAX_STDOUT_LINE_BYTES {
      SizeDelivered(s, lines, rest);
      assert Deliver(parse, s, lines, rest) == Poison(s, OutputTooLarge);
    } else {
      var t := DeliverLine(parse, s, lines[0]);
      LineHandled(parse, s, lines[0]);
      assert Deliver(parse, s, lines, rest) == Deliver(parse, t, lines[1..], rest);
      if t.cleaned {
        assert Deliver(parse, t, lines[1..], rest) == t;
        OneDelivered(s, t, lines, rest);
        n := 1;
      } else {
        n := DeliverHears(parse, t, lines[1..], rest);
        DeliveredNext(s, t, Deliver(parse, t, lines[1..], rest), lines, rest, n);
        n := n + 1;
      }
    }
  }

  /** The first k lines can be handed on without anybody objecting. */
  ghost predicate HandsOn(parse: Parser, s: State, lines: seq<Bytes>, k: nat) {
    k <= |lines| && !Deliver(parse, s, lines[..k], []).cleaned
  }

  lemma {:induction false} DeliverStopsAt(parse: Parser, s: State, lines: seq<Bytes>, rest: Bytes, k: nat)
    requires HandsOn(parse, s, lines, k) && |Nth(lines, rest, k)| > MAX_STDOUT_LINE_BYTES
    ensures TooLong(Deliver(parse, s, lines, rest))
  {
    assert lines == lines[..k] + lines[k..];
    DeliverAppend(parse, s, lines[..k], lines[k..], rest);
    assert k < |lines| ==> lines[k..][0] == lines[k];
  }

  /** A chunk poisons for size if and only if some line of what is kept and what arrives, complete or
      trailing, is too long, and the lines before it are handed on without poisoning. */
  lemma PoisonedForSizeIff(parse: Parser, s: State, chunk: Bytes)
    requires !s.cleaned && s.failure.None? && Framed(s)
    ensures TooLong(Stdout(parse, s, chunk))
            <==> exists k :: OverlongAt(s.buffer + chunk, k) && HandsOn(parse, Bare(s), Lines(s.buffer + chunk), k)
  {
    var lines, rest := Lines(s.buffer + chunk), Rest(s.buffer + chunk);
    var t := Deliver(parse, Bare(s), lines, rest);
    StdoutDelivers(parse, s, chunk);
    assert Bare(Stdout(parse, s, chunk)).failure == Stdout(parse, s, chunk).failure;
    var n := DeliverHears(parse, Bare(s), lines, rest);
    if TooLong(t) {
      NothingBefore(parse, Bare(s), lines, rest, n);
      assert OverlongAt(s.buffer + chunk, n);
    }
    if k: nat :| OverlongAt(s.buffer + chunk, k) && HandsOn(parse, Bare(s), lines, k) {
      DeliverStopsAt(parse, Bare(s), lines, rest, k);
    }
  }

  lemma NothingBefore(parse: Parser, s: State, lines: seq<Bytes>, rest: Bytes, n: nat)
    requires !s.cleaned && s.failure.None? && n <= |lines|
    requires TooLong(Deliver(parse, s, lines, rest)) && forall k :: 0 <= k < n ==> |lines[k]| <= MAX_STDOUT_LINE_BYTES
    ensures HandsOn(parse, s, lines, n)
  {
    var u := Deliver(parse, s, lines[..n], []);
    var m := DeliverHears(parse, s, lines[..n], []);
    assert lines == lines[..n] + lines[n..];
    DeliverAppend(parse, s, lines[..n], lines[n..], rest);
    assert u.cleaned ==> Deliver(parse, s, lines, rest) == u;
  }

  // ---------------------------------------------------------------- framing over a history

  /** The bytes that reached the child's stdout listener. */
  function Fed(parse: Parser, events: seq<Event>): Bytes {
    if events == [] then []
    else
      var before := Fed(parse, Front(events));
      if Last(events).EvStdout? && Run(parse, Front(events)).child then before + Last(events).chunk else before
  }

  /** Lines handed on are the first lines of the stream; all of them while the transport is usable,
      and then no line, complete or trailing, is too long.  A poisoning for size points at the first
      line not handed on, and it is too long. */
  ghost predicate FramedBy(s: State, fed: Bytes) {
    && Heard(s.trace) <= Lines(fed)
    && (!s.cleaned ==> Heard(s.trace) == Lines(fed) && s.buffer == Rest(fed) && !Overlong(fed))
    && (TooLong(s) ==> OverlongAt(fed, |Heard(s.trace)|))
  }

  lemma FramedByQuiet(s: State, t: State, fed: Bytes)
    requires FramedBy(s, fed) && Quiet(s, t)
    ensures FramedBy(t, fed)
  {
  }

  lemma PrefixStays(heard: seq<Bytes>, fed: Bytes, chunk: Bytes)
    requires heard <= Lines(fed)
    ensures heard <= Lines(fed + chunk)
  {
    SplitAnywhere(fed, chunk);
  }

  lemma FramedByInert(parse: Parser, s: State, fed: Bytes, chunk: Bytes)
    requires Inv(s) && s.cleaned && FramedBy(s, fed)
    ensures FramedBy(Stdout(parse, s, chunk), fed + chunk)
  {
    StdoutInert(parse, s, chunk);
    var t := Stdout(parse, s, chunk);
    assert Bare(t).trace == t.trace && Bare(t).cleaned && Bare(t).failure == t.failure;
    PrefixStays(Heard(s.trace), fed, chunk);
    if TooLong(s) { OverlongStays(fed, chunk, |Heard(s.trace)|); }
  }

  lemma NotOverlong(fed: Bytes, lines: seq<Bytes>, rest: Bytes, before: Bytes)
    requires !Overlong(before) && Lines(fed) == Lines(before) + lines && Rest(fed) == rest
    requires forall k :: 0 <= k < |lines| ==> |lines[k]| <= MAX_STDOUT_LINE_BYTES
    requires |rest| <= MAX_STDOUT_LINE_BYTES
    ensures !Overlong(fed)
  {
    forall k: nat | k <= |Lines(fed)| ensures !OverlongAt(fed, k) {
      if k < |Lines(before)| {
        assert !OverlongAt(before, k);
      }
    }
  }

  lemma FramedByFed(parse: Parser, s: State, fed: Bytes, chunk: Bytes)
    requires Inv(s) && !s.cleaned && FramedBy(s, fed)
    ensures FramedBy(Stdout(parse, s, chunk), fed + chunk)
    ensures Audited(s) ==> Audited(Stdout(parse, s, chunk))
  {
    var t, lines, rest := Stdout(parse, s, chunk), Lines(Rest(fed) + chunk), Rest(fed + chunk);
    SplitAnywhere(fed, chunk);
    StdoutDelivers(parse, s, chunk);
    var n := DeliverHears(parse, Bare(s), lines, rest);
    var u := Bare(t);
    assert u.trace == t.trace && u.cleaned == t.cleaned && u.failure == t.failure && u.audit == t.audit;
    HeardPrefix(Bare(s), u, fed + chunk, Lines(fed), lines, rest, n);
    if !t.cleaned {
      NotOverlong(fed + chunk, lines, rest, fed);
    }
  }

  lemma HeardPrefix(s: State, t: State, fed: Bytes, before: seq<Bytes>, lines: seq<Bytes>, rest: Bytes, n: nat)
    requires Delivered(s, t, lines, rest, n) && Heard(s.trace) == before
    requires Lines(fed) == before + lines && Rest(fed) == rest
    ensures Heard(t.trace) <= Lines(fed) && (!t.cleaned ==> Heard(t.trace) == Lines(fed))
    ensures TooLong(t) ==> OverlongAt(fed, |Heard(t.trace)|)
  {
    assert lines == lines[..n] + lines[n..];
  }

  lemma StepFramed(parse: Parser, s: State, e: Event, fed: Bytes)
    requires Inv(s) && Audited(s) && FramedBy(s, fed)
    ensures Audited(Step(parse, s, e))
    ensures FramedBy(Step(parse, s, e), if e.EvStdout? && s.child then fed + e.chunk else fed)
  {
    if !e.EvStdout? {
      QuietStep(parse, s, e);
      FramedByQuiet(s, Step(parse, s, e), fed);
    } else if !s.child {
    } else if s.cleaned {
      FramedByInert(parse, s, fed, e.chunk);
      StdoutInert(parse, s, e.chunk);
    } else {
      FramedByFed(parse, s, fed, e.chunk);
    }
  }

  /** Over every history: framing follows the stream, whatever else happens between the chunks. */
  lemma {:induction false} RunIsFramed(parse: Parser, events: seq<Event>)
    ensures FramedBy(Run(parse, events), Fed(parse, events)) && Audited(Run(parse, events))
  {
    if events == [] {
      forall k: nat ensures !OverlongAt([], k) {}
    } else {
      RunIsFramed(parse, Front(events));
      RunKeeps(parse, Front(events));
      StepFramed(parse, Run(parse, Front(events)), Last(events), Fed(parse, Front(events)));
    }
  }

  // ---------------------------------------------------------------- the trace only grows

  lemma StepGrows(parse: Parser, s: State, e: Event)
    requires Inv(s)
    ensures s.trace <= Step(parse, s, e).trace
  {
    if !e.EvStdout? {
      QuietStep(parse, s, e);
    } else if !s.child {
    } else if s.cleaned {
      StdoutInert(parse, s, e.chunk);
      assert Bare(Stdout(parse, s, e.chunk)).trace == Bare(s).trace;
    } else {
      StdoutDelivers(parse, s, e.chunk);
      var n := DeliverHears(parse, Bare(s), Lines(s.buffer + e.chunk), Rest(s.buffer + e.chunk));
      assert Bare(Stdout(parse, s, e.chunk)).trace == Stdout(parse, s, e.chunk).trace;
    }
  }

  lemma RunAppend(parse: Parser, events: seq<Event>, e: Event)
    ensures Run(parse, events + [e]) == Step(parse, Run(parse, events), e)
  {
    Snoc(events, e);
  }

  lemma OneMoreGrows(parse: Parser, events: seq<Event>, e: Event)
    ensures Run(parse, events).trace <= Run(parse, events + [e]).trace
  {
    RunAppend(parse, events, e);
    RunKeeps(parse, events);
    StepGrows(parse, Run(parse, events), e);
  }

  /** What is in the trace stays there, whatever happens next. */
  lemma {:induction false} RunGrows(parse: Parser, events: seq<Event>, more: seq<Event>)
    ensures Run(parse, events).trace <= Run(parse, events + more).trace
    decreases |more|
  {
    if more == [] {
      assert events + more == events;
    } else {
      OneMoreGrows(parse, events, more[0]);
      RunGrows(parse, events + [more[0]], more[1..]);
      assert events + [more[0]] + more[1..] == events + more;
    }
  }
}
