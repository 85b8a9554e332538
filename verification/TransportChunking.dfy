/** Chunking independence: however the worker's output is cut into chunks, the transport does what
    it would do on the lines of the whole stream. */
module TransportChunking {
  import opened Basics
  import opened TransportTypes
  import opened TransportLog
  import opened TransportModel
  import opened TransportInvariant
  import opened Framing

  /** The transport without its kept bytes. */
  function Bare(s: State): State {
    s.(buffer := [])
  }

  /** One complete line. */
  function DeliverLine(parse: Parser, s: State, line: Bytes): State {
    if |line| > MAX_STDOUT_LINE_BYTES then Poison(s, OutputTooLarge) else HandleLine(parse, s, line)
  }

  /** The reference: whole lines one by one, up to the first that poisons, then the trailing one. */
  function Deliver(parse: Parser, s: State, lines: seq<Bytes>, rest: Bytes): State
    decreases |lines|
  {
    if s.cleaned then s
    else if lines == [] then if |rest| > MAX_STDOUT_LINE_BYTES then Poison(s, OutputTooLarge) else s
    else Deliver(parse, DeliverLine(parse, s, lines[0]), lines[1..], rest)
  }

  lemma InvalidateBare(s: State, failure: Failure)
    ensures Invalidate(Bare(s), failure) == Bare(Invalidate(s, failure))
  {
  }

  lemma AnswerBare(s: State, id: nat, body: Body)
    requires id in s.pending
    ensures Answer(Bare(s), id, body) == Bare(Answer(s, id, body))
  {
    match body
    case Ambiguous => InvalidateBare(s, FailureOf(AmbiguousResponse));
    case BadError => InvalidateBare(s, FailureOf(InvalidStructuredError));
    case StructuredError(e, retryable) => SettleBare(s, id, WorkerErrorFor(s.pending[id], e, retryable));
    case Value(v) => SettleBare(s, id, Resolved(v));
  }

  lemma SettleBare(s: State, id: nat, o: Outcome)
    ensures Settle(Bare(s), id, o) == Bare(Settle(s, id, o))
  {
  }

  lemma AbsorbBare(s: State, id: nat)
    ensures Absorb(Bare(s), id) == Bare(Absorb(s, id))
  {
  }

  lemma RespondBare(s: State, reply: Reply)
    ensures Respond(Bare(s), reply) == Bare(Respond(s, reply))
  {
    var bare := Bare(s);
    assert bare.pending == s.pending && bare.abandoned == s.abandoned;
    if !reply.Envelope? {
      InvalidateBare(s, FailureOf(EnvelopeFault(reply)));
    } else if reply.id in s.pending {
      AnswerBare(s, reply.id, reply.body);
    } else if reply.id in s.abandoned {
      AbsorbBare(s, reply.id);
    } else {
      InvalidateBare(s, FailureOf(UnknownResponseId));
    }
  }

  lemma DeliverLineBare(parse: Parser, s: State, line: Bytes)
    ensures DeliverLine(parse, Bare(s), line) == Bare(DeliverLine(parse, s, line))
  {
    var reply := parse(StripCarriageReturn(line));
    InvalidateBare(s, FailureOf(OutputTooLarge));
    RespondBare(s, reply);
    RespondBare(Take(s, line, reply), reply);
  }

  lemma TakeLineDelivers(parse: Parser, s: State)
    requires NewlineAt(s.buffer) < |s.buffer|
    ensures Bare(TakeLine(parse, s)) == DeliverLine(parse, Bare(s), s.buffer[..NewlineAt(s.buffer)])
  {
    var i := NewlineAt(s.buffer);
    var line, rest := s.buffer[..i], s.(buffer := s.buffer[i + 1..]);
    var t := DeliverLine(parse, rest, line);
    assert TakeLine(parse, s) == t by { TakeLineIs(parse, s); }
    assert DeliverLine(parse, Bare(s), line) == Bare(t) by {
      DeliverLineBare(parse, rest, line);
      StillBare(s, s.buffer[i + 1..]);
    }
  }

  lemma StillBare(s: State, buffer: Bytes)
    ensures Bare(s.(buffer := buffer)) == Bare(s)
  {
  }

  lemma TakeLineIs(parse: Parser, s: State)
    requires NewlineAt(s.buffer) < |s.buffer|
    ensures var i := NewlineAt(s.buffer);
            TakeLine(parse, s) == DeliverLine(parse, s.(buffer := s.buffer[i + 1..]), s.buffer[..i])
  {
  }

  /** The read loop hands on exactly the lines of the buffered bytes. */
  lemma {:induction false} PumpDelivers(parse: Parser, s: State)
    requires !s.cleaned
    ensures Bare(Pump(parse, s)) == Deliver(parse, Bare(s), Lines(s.buffer), Rest(s.buffer))
    ensures !Pump(parse, s).cleaned ==> Pump(parse, s).buffer == Rest(s.buffer)
    decreases |s.buffer|
  {
    if NewlineAt(s.buffer) == |s.buffer| {
      InvalidateBare(s, FailureOf(OutputTooLarge));
    } else {
      var t := TakeLine(parse, s);
      FirstLineDelivers(parse, s);
      if !t.cleaned { PumpDelivers(parse, t); }
    }
  }

  lemma FirstLineDelivers(parse: Parser, s: State)
    requires !s.cleaned && NewlineAt(s.buffer) < |s.buffer|
    ensures var t := TakeLine(parse, s);
            && Deliver(parse, Bare(s), Lines(s.buffer), Rest(s.buffer))
               == Deliver(parse, Bare(t), Lines(t.buffer), Rest(t.buffer))
            && Rest(s.buffer) == Rest(t.buffer)
            && (t.cleaned ==> Deliver(parse, Bare(s), Lines(s.buffer), Rest(s.buffer)) == Bare(t))
  {
    var t := TakeLine(parse, s);
    assert Bare(t) == DeliverLine(parse, Bare(s), s.buffer[..NewlineAt(s.buffer)]) by { TakeLineDelivers(parse, s); }
    DeliverFirst(parse, Bare(s), s.buffer);
    if t.cleaned { DeliverCleaned(parse, Bare(t), Lines(t.buffer), Rest(t.buffer)); }
  }

  lemma DeliverCleaned(parse: Parser, s: State, lines: seq<Bytes>, rest: Bytes)
    requires s.cleaned
    ensures Deliver(parse, s, lines, rest) == s
  {
  }

  lemma DeliverFirst(parse: Parser, s: State, bytes: Bytes)
    requires !s.cleaned && NewlineAt(bytes) < |bytes|
    ensures var line, left := bytes[..NewlineAt(bytes)], bytes[NewlineAt(bytes) + 1..];
            && Deliver(parse, s, Lines(bytes), Rest(bytes))
               == Deliver(parse, DeliverLine(parse, s, line), Lines(left), Rest(left))
            && Rest(bytes) == Rest(left)
  {
    var lines := Lines(bytes);
    assert lines[0] == bytes[..NewlineAt(bytes)] && lines[1..] == Lines(bytes[NewlineAt(bytes) + 1..]);
  }

  /** Both early size checks agree with the reference. */
  lemma StdoutDelivers(parse: Parser, s: State, chunk: Bytes)
    requires !s.cleaned && Framed(s)
    ensures Bare(Stdout(parse, s, chunk))
         == Deliver(parse, Bare(s), Lines(s.buffer + chunk), Rest(s.buffer + chunk))
    ensures !Stdout(parse, s, chunk).cleaned ==> Stdout(parse, s, chunk).buffer == Rest(s.buffer + chunk)
  {
    var u := s.(buffer := s.buffer + chunk);
    assert Bare(u) == Bare(s);
    PumpDelivers(parse, u);
    if NEWLINE !in s.buffer + chunk {
      NoNewline(s.buffer + chunk);
      InvalidateBare(s, FailureOf(OutputTooLarge));
      InvalidateBare(u, FailureOf(OutputTooLarge));
    }
  }

  lemma {:induction false} DeliverAppend(parse: Parser, s: State, first: seq<Bytes>, next: seq<Bytes>, rest: Bytes)
    ensures Deliver(parse, s, first + next, rest) == Deliver(parse, Deliver(parse, s, first, []), next, rest)
    decreases |first|
  {
    if first == [] {
      assert first + next == next;
    } else if !s.cleaned {
      DeliverAppend(parse, DeliverLine(parse, s, first[0]), first[1..], next, rest);
      assert (first + next)[1..] == first[1..] + next;
    }
  }

  lemma {:induction false} DeliverRest(parse: Parser, s: State, lines: seq<Bytes>, rest: Bytes)
    ensures Deliver(parse, s, lines, rest) == Deliver(parse, Deliver(parse, s, lines, []), [], rest)
  {
    DeliverAppend(parse, s, lines, [], rest);
    assert lines + [] == lines;
  }

  /** A line too long already is too long when more bytes arrive. */
  lemma TrailingPoisons(parse: Parser, s: State, rest: Bytes, more: Bytes)
    requires !s.cleaned && NewlineAt(rest) == |rest| > MAX_STDOUT_LINE_BYTES
    ensures Deliver(parse, s, Lines(rest + more), Rest(rest + more)) == Poison(s, OutputTooLarge)
  {
    TrailingGrows(rest, more);
    assert Poison(s, OutputTooLarge).cleaned;
  }

  lemma StdoutInert(parse: Parser, s: State, chunk: Bytes)
    requires Inv(s) && s.cleaned
    ensures Bare(Stdout(parse, s, chunk)) == Bare(s)
  {
    PumpInert(parse, s.(buffer := s.buffer + chunk));
  }

  /** Two chunks do what their concatenation does. */
  lemma TwoChunks(parse: Parser, s: State, a: Bytes, b: Bytes)
    requires Inv(s) && !s.cleaned
    ensures Bare(Stdout(parse, Stdout(parse, s, a), b)) == Bare(Stdout(parse, s, a + b))
    ensures !Stdout(parse, Stdout(parse, s, a), b).cleaned ==>
              Stdout(parse, Stdout(parse, s, a), b).buffer == Stdout(parse, s, a + b).buffer
  {
    var u, t := s.buffer + a, Stdout(parse, s, a);
    assert s.buffer + (a + b) == u + b;
    StdoutDelivers(parse, s, a);
    StdoutDelivers(parse, s, a + b);
    StdoutKeeps(parse, s, a);
    SplitAnywhere(u, b);
    RestHasNoNewline(u);
    var m := Deliver(parse, Bare(s), Lines(u), []);
    DeliverRest(parse, Bare(s), Lines(u), Rest(u));
    DeliverAppend(parse, Bare(s), Lines(u), Lines(Rest(u) + b), Rest(u + b));
    if t.cleaned {
      StdoutInert(parse, t, b);
      if !m.cleaned { TrailingPoisons(parse, m, Rest(u), b); }
    } else {
      StdoutDelivers(parse, t, b);
    }
  }

  function StdoutAll(parse: Parser, s: State, chunks: seq<Bytes>): State {
    if chunks == [] then s else Stdout(parse, StdoutAll(parse, s, Front(chunks)), Last(chunks))
  }

  function Concat(chunks: seq<Bytes>): Bytes {
    if chunks == [] then [] else Concat(Front(chunks)) + Last(chunks)
  }

  lemma NothingArrives(parse: Parser, s: State)
    requires Inv(s)
    ensures Bare(Stdout(parse, s, [])) == Bare(s)
  {
    if s.cleaned {
      StdoutInert(parse, s, []);
    } else {
      assert s.buffer + [] == s.buffer;
      StdoutDelivers(parse, s, []);
      NoNewline(s.buffer);
    }
  }

  lemma NothingChanges(parse: Parser, s: State)
    requires Inv(s) && !s.cleaned
    ensures Stdout(parse, s, []) == s
  {
    NothingArrives(parse, s);
    assert s.buffer + [] == s.buffer;
    NoNewline(s.buffer);
    StdoutDelivers(parse, s, []);
  }

  lemma {:induction false} StdoutAllKeeps(parse: Parser, s: State, chunks: seq<Bytes>)
    requires Inv(s)
    ensures Inv(StdoutAll(parse, s, chunks))
  {
    if chunks != [] {
      StdoutAllKeeps(parse, s, Front(chunks));
      StdoutKeeps(parse, StdoutAll(parse, s, Front(chunks)), Last(chunks));
    }
  }

  /** Usable states that differ in nothing but kept bytes do not differ once fed: bytes kept by a
      usable transport are the trailing line of what it was fed. */
  lemma {:induction false} ChunkingIrrelevant(parse: Parser, s: State, chunks: seq<Bytes>)
    requires Inv(s) && !s.cleaned
    ensures Bare(StdoutAll(parse, s, chunks)) == Bare(Stdout(parse, s, Concat(chunks)))
    ensures !StdoutAll(parse, s, chunks).cleaned ==> StdoutAll(parse, s, chunks) == Stdout(parse, s, Concat(chunks))
  {
    if chunks == [] {
      NothingChanges(parse, s);
    } else {
      var fed, last := Concat(Front(chunks)), Last(chunks);
      var u, v := StdoutAll(parse, s, Front(chunks)), Stdout(parse, s, fed);
      ChunkingIrrelevant(parse, s, Front(chunks));
      StdoutAllKeeps(parse, s, Front(chunks));
      StdoutKeeps(parse, s, fed);
      TwoChunks(parse, s, fed, last);
      if u.cleaned {
        StdoutInert(parse, u, last);
        StdoutInert(parse, v, last);
      } else {
        assert u == v;
      }
    }
  }
}
