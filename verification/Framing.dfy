/** Splitting a byte stream into lines, as a reference: no chunks, no state. */
module Framing {
  import opened Basics
  import opened TransportTypes

  function NewlineAt(b: Bytes): (i: nat)
    ensures i <= |b|
    ensures i < |b| ==> b[i] == NEWLINE
    ensures forall k :: 0 <= k < i ==> b[k] != NEWLINE
  {
    if b == [] || b[0] == NEWLINE then 0 else 1 + NewlineAt(b[1..])
  }

  /** The complete lines of a stream. */
  function Lines(b: Bytes): seq<Bytes>
    decreases |b|
  {
    var i := NewlineAt(b);
    if i == |b| then [] else [b[..i]] + Lines(b[i + 1..])
  }

  /** What follows the last newline. */
  function Rest(b: Bytes): Bytes
    decreases |b|
  {
    var i := NewlineAt(b);
    if i == |b| then b else Rest(b[i + 1..])
  }

  /** The k-th line, complete or trailing. */
  function LineAt(b: Bytes, k: nat): Bytes
    requires k <= |Lines(b)|
  {
    if k < |Lines(b)| then Lines(b)[k] else Rest(b)
  }

  ghost predicate OverlongAt(b: Bytes, k: nat) {
    k <= |Lines(b)| && |LineAt(b, k)| > 1_048_576
  }

  ghost predicate Overlong(b: Bytes) {
    exists k :: OverlongAt(b, k)
  }

  lemma NewlineAppend(a: Bytes, b: Bytes)
    ensures NewlineAt(a) < |a| ==> NewlineAt(a + b) == NewlineAt(a)
    ensures NewlineAt(a) == |a| ==> NewlineAt(a + b) == |a| + NewlineAt(b)
  {
    var i, j := NewlineAt(a), NewlineAt(a + b);
    if i < |a| {
      assert (a + b)[i] == NEWLINE;
      assert j < |a| ==> a[j] == (a + b)[j];
    } else {
      var n := NewlineAt(b);
      assert n < |b| ==> (a + b)[|a| + n] == NEWLINE;
      assert forall k :: 0 <= k < |a| ==> (a + b)[k] == a[k];
      assert forall k :: |a| <= k < |a + b| ==> (a + b)[k] == b[k - |a|];
    }
  }

  /** What precedes the first newline does not depend on what follows the stream. */
  lemma UnfoldAppended(a: Bytes, b: Bytes)
    requires NewlineAt(a) < |a|
    ensures var i, tail := NewlineAt(a), a[NewlineAt(a) + 1..];
            && Lines(a) == [a[..i]] + Lines(tail) && Rest(a) == Rest(tail)
            && Lines(a + b) == [a[..i]] + Lines(tail + b) && Rest(a + b) == Rest(tail + b)
  {
    var i := NewlineAt(a);
    NewlineAppend(a, b);
    assert (a + b)[i + 1..] == a[i + 1..] + b;
    assert (a + b)[..i] == a[..i];
  }

  /** Lines put together again, each with the byte 10 that ends it. */
  function Glued(lines: seq<Bytes>): Bytes {
    if lines == [] then [] else lines[0] + [10] + Glued(lines[1..])
  }

  predicate NoLineEnd(b: Bytes) {
    forall k :: 0 <= k < |b| ==> b[k] != 10
  }

  lemma {:induction false} LinesHaveNoEnd(b: Bytes)
    ensures (forall k :: 0 <= k < |Lines(b)| ==> NoLineEnd(Lines(b)[k])) && NoLineEnd(Rest(b))
    decreases |b|
  {
    if NewlineAt(b) < |b| { LinesHaveNoEnd(b[NewlineAt(b) + 1..]); }
  }

  /** The lines and what follows them are the stream, cut at every byte 10 and nowhere else. */
  lemma {:induction false} LinesAreTheStream(b: Bytes)
    ensures b == Glued(Lines(b)) + Rest(b)
    ensures (forall k :: 0 <= k < |Lines(b)| ==> NoLineEnd(Lines(b)[k])) && NoLineEnd(Rest(b))
    decreases |b|
  {
    var i := NewlineAt(b);
    LinesHaveNoEnd(b);
    if i < |b| {
      var first, tail := b[..i], b[i + 1..];
      LinesAreTheStream(tail);
      assert b == (first + [10]) + tail;
      ConcatAssociates(first + [10], Glued(Lines(tail)), Rest(tail));
      assert Lines(b)[1..] == Lines(tail);
    }
  }

  lemma ConcatAssociates<T>(a: seq<T>, b: seq<T>, c: seq<T>)
    ensures a + (b + c) == (a + b) + c
  {
  }

  /** Where the stream is cut does not matter. */
  lemma {:induction false} SplitAnywhere(a: Bytes, b: Bytes)
    ensures Lines(a + b) == Lines(a) + Lines(Rest(a) + b)
    ensures Rest(a + b) == Rest(Rest(a) + b)
    decreases |a|
  {
    if NewlineAt(a) < |a| {
      var first, tail := [a[..NewlineAt(a)]], a[NewlineAt(a) + 1..];
      UnfoldAppended(a, b);
      SplitAnywhere(tail, b);
      ConcatAssociates(first, Lines(tail), Lines(Rest(tail) + b));
    } else {
      assert Lines(a) + Lines(a + b) == Lines(a + b);
    }
  }

  lemma {:induction false} RestHasNoNewline(b: Bytes)
    ensures NewlineAt(Rest(b)) == |Rest(b)| && Lines(Rest(b)) == [] && Rest(Rest(b)) == Rest(b)
    ensures NEWLINE !in Rest(b)
    decreases |b|
  {
    if NewlineAt(b) < |b| {
      RestHasNoNewline(b[NewlineAt(b) + 1..]);
    }
  }

  lemma NoNewline(b: Bytes)
    requires NEWLINE !in b
    ensures NewlineAt(b) == |b| && Lines(b) == [] && Rest(b) == b
  {
    assert forall k :: 0 <= k < |b| ==> b[k] in b;
  }

  /** A stream without newline only grows its trailing line, or completes it. */
  lemma TrailingGrows(a: Bytes, b: Bytes)
    requires NewlineAt(a) == |a|
    ensures |LineAt(a + b, 0)| >= |a|
  {
    NewlineAppend(a, b);
  }

  /** An overlong line stays overlong, at the same place, however the stream goes on. */
  lemma OverlongStays(a: Bytes, b: Bytes, k: nat)
    requires OverlongAt(a, k)
    ensures OverlongAt(a + b, k)
  {
    SplitAnywhere(a, b);
    if k == |Lines(a)| {
      RestHasNoNewline(a);
      TrailingGrows(Rest(a), b);
      assert LineAt(a + b, k) == LineAt(Rest(a) + b, 0);
    }
  }
}
