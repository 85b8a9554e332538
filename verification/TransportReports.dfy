/** When "not started" goes on to be true: the report that comes with a worker's error. */
module TransportReports {
  import opened Basics
  import opened TransportTypes
  import opened TransportLog
  import opened TransportModel
  import opened TransportInvariant
  import opened TransportChunking
  import opened TransportRuns
  import opened TransportTheorems
  import opened Framing

  // ---------------------------------------------------------------- writing everything queued

  const WRITTEN := EvWriteDone(true, Taken)

  /** A usable transport whose body is on its way, and whose pipe takes more. */
  ghost predicate Flowing(s: State) {
    !s.cleaned && s.writing && !s.blocked
  }

  lemma NextLeaves(parse: Parser, s: State)
    requires Inv(s) && Flowing(s) && s.queue != []
    ensures var t := Step(parse, s, WRITTEN);
            Flowing(t) && t.queue == s.queue[1..] && t.trace == s.trace + [Wrote(s.queue[0].id)]
  {
    assert s.inFlight != 0 && s.child;
    assert Step(parse, s, WRITTEN) == Dispatch(Landed(s, true));
  }

  lemma SeenWritten(parse: Parser, events: seq<Event>, before: seq<Entry>, id: nat)
    requires Run(parse, events).trace == before + [Wrote(id)]
    ensures WrittenIn(Run(parse, events).trace, id)
  {
    assert Run(parse, events).trace[|before|] == Wrote(id);
  }

  /** Write callbacks that succeed bring every queued body out. */
  lemma {:induction false} Leaves(parse: Parser, events: seq<Event>, id: nat) returns (more: seq<Event>)
    requires Flowing(Run(parse, events)) && id in QueueIds(Run(parse, events).queue)
    ensures WrittenIn(Run(parse, events + more).trace, id)
    decreases |Run(parse, events).queue|
  {
    var s := Run(parse, events);
    RunKeeps(parse, events);
    NextLeaves(parse, s);
    RunAppend(parse, events, WRITTEN);
    if s.queue[0].id == id {
      more := [WRITTEN];
      SeenWritten(parse, events + more, s.trace, id);
    } else {
      var rest := Leaves(parse, events + [WRITTEN], id);
      more := [WRITTEN] + rest;
      assert events + [WRITTEN] + rest == events + more;
    }
  }

  lemma Unblocks(parse: Parser, s: State)
    requires Inv(s) && !s.cleaned && s.queue != []
    ensures var t := Step(parse, s, EvDrain(Taken));
            && Flowing(t)
            && (t.queue == s.queue || (t.queue == s.queue[1..] && t.trace == s.trace + [Wrote(s.queue[0].id)]))
  {
    var u := s.(blocked := false);
    assert s.child && Step(parse, s, EvDrain(Taken)) == Flush(u, Taken);
    if !s.writing { assert Flush(u, Taken) == Dispatch(u); }
  }

  lemma Gone(parse: Parser, events: seq<Event>, id: nat) returns (more: seq<Event>)
    requires !Run(parse, events).cleaned && id in QueueIds(Run(parse, events).queue)
    ensures WrittenIn(Run(parse, events + more).trace, id)
  {
    var now := events + [EvDrain(Taken)];
    OnceUnblocked(parse, events, id);
    if WrittenIn(Run(parse, now).trace, id) {
      more := [EvDrain(Taken)];
    } else {
      var rest := Leaves(parse, now, id);
      more := [EvDrain(Taken)] + rest;
      assert now + rest == events + more;
    }
  }

  lemma OnceUnblocked(parse: Parser, events: seq<Event>, id: nat)
    requires !Run(parse, events).cleaned && id in QueueIds(Run(parse, events).queue)
    ensures var t := Run(parse, events + [EvDrain(Taken)]);
            Flowing(t) && (id in QueueIds(t.queue) || WrittenIn(t.trace, id))
  {
    var s := Run(parse, events);
    RunKeeps(parse, events);
    RunAppend(parse, events, EvDrain(Taken));
    Unblocks(parse, s);
    if s.queue[0].id == id && Run(parse, events + [EvDrain(Taken)]).queue != s.queue {
      SeenWritten(parse, events + [EvDrain(Taken)], s.trace, id);
    }
  }

  /** A usable transport that has a child can see it start. */
  lemma Starts(parse: Parser, events: seq<Event>) returns (more: seq<Event>)
    requires !Run(parse, events).cleaned && Run(parse, events).child
    ensures var t := Run(parse, events + more);
            StartedIn(t.trace) && !t.cleaned && t.queue == Run(parse, events).queue
  {
    var s := Run(parse, events);
    if s.childStarted {
      more := [];
      assert events + more == events;
      StartIsSeen(parse, events);
    } else {
      more := [EvSpawned];
      RunKeeps(parse, events);
      RunAppend(parse, events, EvSpawned);
      assert Spawned(s).trace[|s.trace|].Started?;
    }
  }

  lemma StartIsSeen(parse: Parser, events: seq<Event>)
    requires Run(parse, events).childStarted
    ensures StartedIn(Run(parse, events).trace)
  {
    RunKeeps(parse, events);
    RunIsFramed(parse, events);
    AuditKnowsStart(Run(parse, events).trace);
  }

  lemma StaysStarted(parse: Parser, events: seq<Event>, more: seq<Event>)
    requires StartedIn(Run(parse, events).trace)
    ensures StartedIn(Run(parse, events + more).trace)
  {
    RunGrows(parse, events, more);
    var t := Run(parse, events).trace;
    var b :| 0 <= b < |t| && t[b].Started?;
    assert Run(parse, events + more).trace[b].Started?;
  }

  /** A body still queued in a usable transport can always go on to be written to a started child. */
  lemma LeavesStarted(parse: Parser, events: seq<Event>, id: nat) returns (more: seq<Event>)
    requires !Run(parse, events).cleaned && Run(parse, events).child && id in QueueIds(Run(parse, events).queue)
    ensures WrittenIn(Run(parse, events + more).trace, id) && StartedIn(Run(parse, events + more).trace)
  {
    var first := Starts(parse, events);
    var now := events + first;
    var rest := Gone(parse, now, id);
    StaysStarted(parse, now, rest);
    more := first + rest;
    assert now + rest == events + more;
  }

  // ---------------------------------------------------------------- the report with a worker's error

  lemma OneLine(line: Bytes)
    requires NEWLINE !in line
    ensures Lines(line + [NEWLINE]) == [line] && Rest(line + [NEWLINE]) == []
  {
    var b := line + [NEWLINE];
    assert b[|line|] == NEWLINE;
    assert forall k :: 0 <= k < |line| ==> b[k] == line[k] && line[k] != NEWLINE;
    assert NewlineAt(b) == |line|;
    assert b[..|line|] == line && b[|line| + 1..] == [];
  }

  /** The chunk completes one line, an error of the worker for a pending request. */
  ghost predicate ErrorArrives(parse: Parser, s: State, chunk: Bytes, line: Bytes) {
    var reply := parse(StripCarriageReturn(line));
    && !s.cleaned && s.buffer + chunk == line + [NEWLINE] && NEWLINE !in line && |line| <= MAX_STDOUT_LINE_BYTES
    && reply.Envelope? && reply.body.StructuredError? && reply.id in s.pending
  }

  lemma OneLineHandled(parse: Parser, s: State, chunk: Bytes, line: Bytes)
    requires Framed(s) && !s.cleaned && s.buffer + chunk == line + [NEWLINE] && NEWLINE !in line
    requires |line| <= MAX_STDOUT_LINE_BYTES && !HandleLine(parse, Bare(s), line).cleaned
    ensures Bare(Stdout(parse, s, chunk)) == HandleLine(parse, Bare(s), line)
  {
    OneLine(line);
    StdoutDelivers(parse, s, chunk);
    var u := HandleLine(parse, Bare(s), line);
    assert DeliverLine(parse, Bare(s), line) == u;
    assert Deliver(parse, u, [], []) == u;
  }

  lemma ErrorHandled(parse: Parser, s: State, line: Bytes)
    requires var reply := parse(StripCarriageReturn(line));
             !s.cleaned && reply.Envelope? && reply.body.StructuredError? && reply.id in s.pending
    ensures var reply := parse(StripCarriageReturn(line));
            var o := WorkerErrorFor(s.pending[reply.id], reply.body.error, reply.body.retryable);
            HandleLine(parse, s, line) == Settle(Take(s, line, reply), reply.id, o)
  {
  }

  lemma ErrorSettles(parse: Parser, s: State, chunk: Bytes, line: Bytes)
    requires s.child && Framed(s) && ErrorArrives(parse, s, chunk, line)
    ensures var reply := parse(StripCarriageReturn(line));
            var o := WorkerErrorFor(s.pending[reply.id], reply.body.error, reply.body.retryable);
            Bare(Step(parse, s, EvStdout(chunk))) == Bare(Settle(Take(s, line, reply), reply.id, o))
  {
    ErrorHandled(parse, Bare(s), line);
    OneLineHandled(parse, s, chunk, line);
  }

  lemma ErrorIsSettled(parse: Parser, s: State, chunk: Bytes, line: Bytes)
    requires s.child && Framed(s) && ErrorArrives(parse, s, chunk, line)
    ensures var reply := parse(StripCarriageReturn(line));
            var o := WorkerErrorFor(s.pending[reply.id], reply.body.error, reply.body.retryable);
            var t := Step(parse, s, EvStdout(chunk));
            && t.trace == s.trace + [Received(line, reply), Settled(reply.id, o)]
            && t.queue == s.queue && !t.cleaned
  {
    var reply := parse(StripCarriageReturn(line));
    var o := WorkerErrorFor(s.pending[reply.id], reply.body.error, reply.body.retryable);
    ErrorSettles(parse, s, chunk, line);
    SameButBytes(Step(parse, s, EvStdout(chunk)), Settle(Take(s, line, reply), reply.id, o));
  }

  /** A report of "not started" stands for ever for a dispatched request. */
  lemma DispatchedStands(parse: Parser, events: seq<Event>, k: nat, id: nat)
    requires var t := Run(parse, events).trace;
             k < |t| && t[k].Settled? && t[k].id == id && !ClaimsNotStarted(t[k].outcome)
    ensures !FalselyReported(Run(parse, events).trace, id)
  {
    var t := Run(parse, events).trace;
    RunTellsTheTruth(parse, events);
    assert id in Ends(t[k]);
    forall j, w, b | 0 <= j < |t| && 0 <= w < |t| && 0 <= b < |t| ensures !FalseAt(t, j, id, w, b) {
      if j < k && id in Ends(t[j]) { SettledOnce(t, j, k, id); }
      if k < j && id in Ends(t[j]) { SettledOnce(t, k, j, id); }
    }
  }

  lemma ReportedFalsely(t: seq<Entry>, k: nat, id: nat)
    requires k < |t| && t[k].Settled? && t[k].id == id && ClaimsNotStarted(t[k].outcome)
    requires WrittenIn(t, id) && StartedIn(t)
    ensures FalselyReported(t, id)
  {
    var w :| 0 <= w < |t| && t[w] == Wrote(id);
    var b :| 0 <= b < |t| && t[b].Started?;
    assert FalseAt(t, k, id, w, b);
  }

  /** The report that comes with a worker's error is true whatever happens next if and only if the
      answered request had been dispatched. */
  lemma ErrorReportStandsIff(parse: Parser, events: seq<Event>, chunk: Bytes, line: Bytes)
    requires ErrorArrives(parse, Run(parse, events), chunk, line)
    ensures var id := parse(StripCarriageReturn(line)).id;
            (forall more :: !FalselyReported(Run(parse, events + [EvStdout(chunk)] + more).trace, id))
            <==> Run(parse, events).pending[id].dispatched
  {
    var s, now, reply := Run(parse, events), events + [EvStdout(chunk)], parse(StripCarriageReturn(line));
    RunKeeps(parse, events);
    ErrorIsSettled(parse, s, chunk, line);
    RunAppend(parse, events, EvStdout(chunk));
    var k, id := |s.trace| + 1, reply.id;
    if s.pending[id].dispatched {
      forall more: seq<Event> ensures !FalselyReported(Run(parse, now + more).trace, id) {
        RunGrows(parse, now, more);
        DispatchedStands(parse, now + more, k, id);
      }
    } else {
      assert id in QueueIds(Run(parse, now).queue);
      RunKeeps(parse, now);
      var more := LeavesStarted(parse, now, id);
      RunGrows(parse, now, more);
      ReportedFalsely(Run(parse, now + more).trace, k, id);
    }
  }

  const EARLY: Reply := Envelope(2, StructuredError("busy", true))

  const PLAIN := RequestArgs(true, false, Default, NoSignal, Some(5), true, Taken)

  /** A worker that answers request 2 with an error while it is still queued: its promise ends, with the
      report that the write was not started, and its body is written to the child all the same. */
  lemma UnaskedAnswerIsWrittenLater(parse: Parser)
    requires parse([]) == EARLY
    ensures var before := [EvRequest(PLAIN), EvSpawned, EvRequest(PLAIN), EvStdout([NEWLINE])];
            var s, t := Run(parse, before), Run(parse, before + [WRITTEN]);
            && 2 in QueueIds(s.queue) && 2 !in s.pending
            && t.trace == s.trace + [Wrote(2)] && FalselyReported(t.trace, 2)
  {
    UnaskedIsRun(parse);
    UnaskedIsFalse(parse);
  }

  /** Request 1 on its way, request 2 queued. */
  function Two(parse: Parser): State {
    Step(parse, Step(parse, Step(parse, INITIAL, EvRequest(PLAIN)), EvSpawned), EvRequest(PLAIN))
  }

  function Early(parse: Parser): State {
    Step(parse, Two(parse), EvStdout([NEWLINE]))
  }

  lemma TwoIsRun(parse: Parser)
    ensures Run(parse, [EvRequest(PLAIN), EvSpawned, EvRequest(PLAIN)]) == Two(parse)
  {
    var r := EvRequest(PLAIN);
    RunAppend(parse, [], r);
    RunAppend(parse, [r], EvSpawned);
    RunAppend(parse, [r, EvSpawned], r);
    assert [] + [r] == [r] && [r] + [EvSpawned] == [r, EvSpawned] && [r, EvSpawned] + [r] == [r, EvSpawned, r];
  }

  lemma TwoRequests(parse: Parser)
    ensures var s := Two(parse);
            && s.queue == [QueuedWrite(2, 5)] && 2 in s.pending && s.pending[2] == Fresh(false, false)
            && s.inFlight == 1 && s.buffer == [] && |s.trace| == 4 && s.trace[2].Started?
            && !s.cleaned && s.child && s.writing && !s.blocked
  {
    var r := EvRequest(PLAIN);
    var s := Flush(Admit(INITIAL, PLAIN), Taken);
    assert Step(parse, INITIAL, r) == s;
    var t := Spawned(s);
    assert t.queue == [] && t.nextId == 2 && t.writing && t.child && |t.pending| == 1 && |t.trace| == 3;
    assert Step(parse, t, r) == Admit(t, PLAIN);
  }

  lemma EarlyError(parse: Parser, s: State)
    requires !s.cleaned && s.child && s.buffer == [] && 2 in s.pending && parse([]) == EARLY
    ensures var t := Step(parse, s, EvStdout([NEWLINE]));
            && t.queue == s.queue && t.writing == s.writing && t.blocked == s.blocked && t.inFlight == s.inFlight
            && !t.cleaned && t.child && 2 !in t.pending
            && t.trace == s.trace + [Received([], EARLY), Settled(2, WorkerErrorFor(s.pending[2], "busy", true))]
  {
    assert s.buffer + [NEWLINE] == [] + [NEWLINE];
    ErrorSettles(parse, s, [NEWLINE], []);
    ErrorIsSettled(parse, s, [NEWLINE], []);
    var o := WorkerErrorFor(s.pending[2], "busy", true);
    SameButBytes(Step(parse, s, EvStdout([NEWLINE])), Settle(Take(s, [], EARLY), 2, o));
  }

  lemma SameButBytes(s: State, t: State)
    requires Bare(s) == Bare(t)
    ensures s.queue == t.queue && s.writing == t.writing && s.blocked == t.blocked && s.inFlight == t.inFlight
    ensures s.cleaned == t.cleaned && s.child == t.child && s.pending == t.pending && s.trace == t.trace
  {
    var u, v := Bare(s), Bare(t);
    assert u.queue == s.queue && u.writing == s.writing && u.blocked == s.blocked && u.inFlight == s.inFlight;
    assert u.cleaned == s.cleaned && u.child == s.child && u.pending == s.pending && u.trace == s.trace;
  }

  lemma UnaskedIsRun(parse: Parser)
    ensures var before := [EvRequest(PLAIN), EvSpawned, EvRequest(PLAIN), EvStdout([NEWLINE])];
            && Run(parse, before) == Early(parse)
            && Run(parse, before + [WRITTEN]) == Step(parse, Early(parse), WRITTEN)
  {
    var two := [EvRequest(PLAIN), EvSpawned, EvRequest(PLAIN)];
    TwoIsRun(parse);
    RunAppend(parse, two, EvStdout([NEWLINE]));
    assert two + [EvStdout([NEWLINE])] == [EvRequest(PLAIN), EvSpawned, EvRequest(PLAIN), EvStdout([NEWLINE])];
    RunAppend(parse, two + [EvStdout([NEWLINE])], WRITTEN);
  }

  lemma UnaskedIsFalse(parse: Parser)
    requires parse([]) == EARLY
    ensures var s, t := Early(parse), Step(parse, Early(parse), WRITTEN);
            && 2 in QueueIds(s.queue) && 2 !in s.pending
            && t.trace == s.trace + [Wrote(2)] && FalselyReported(t.trace, 2)
  {
    TwoRequests(parse);
    EarlyError(parse, Two(parse));
    WrittenAfterwards(parse, Early(parse));
    FalseFromThere(Two(parse).trace, Early(parse).trace, Step(parse, Early(parse), WRITTEN).trace);
  }

  lemma FalseFromThere(two: seq<Entry>, early: seq<Entry>, t: seq<Entry>)
    requires |two| == 4 && two[2].Started? && t == early + [Wrote(2)]
    requires early == two + [Received([], EARLY), Settled(2, WorkerErrorFor(Fresh(false, false), "busy", true))]
    ensures FalselyReported(t, 2)
  {
    assert t[2].Started? && t[6] == Wrote(2);
    ReportedFalsely(t, 5, 2);
  }

  lemma WrittenAfterwards(parse: Parser, s: State)
    requires !s.cleaned && s.child && s.writing && !s.blocked && s.inFlight != 0 && s.queue == [QueuedWrite(2, 5)]
    ensures Step(parse, s, WRITTEN).trace == s.trace + [Wrote(2)]
  {
    assert Step(parse, s, WRITTEN) == Dispatch(Landed(s, true));
  }
}
