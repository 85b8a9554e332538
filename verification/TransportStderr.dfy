/** The bounded stderr collector of the transport. */
module TransportStderr {
  import opened Basics
  import opened TransportTypes

  /** `read` is everything the child wrote so far. */
  class StderrCollector {
    const limit: nat
    var chunks: seq<Bytes>
    var bytes: nat
    var truncated: bool
    ghost var read: Bytes

    /** What is kept is the first `limit` bytes of the stream, and truncation is reported exactly when
        there were more: how the stream was cut into chunks leaves no mark. */
    ghost predicate Valid()
      reads this
    {
      && bytes == |Joined(chunks)| <= limit
      && Joined(chunks) == read[..if |read| < limit then |read| else limit]
      && (truncated <==> |read| > limit)
    }

    constructor (limit: nat)
      ensures Valid() && read == [] && this.limit == limit
    {
      this.limit := limit;
      chunks, bytes, truncated, read := [], 0, false, [];
    }

    method CollectStderr(chunk: Bytes)
      requires Valid()
      modifies this
      ensures Valid() && read == old(read) + chunk
    {
      read := read + chunk;
      if bytes >= limit {
        truncated := truncated || |chunk| > 0;
        return;
      }
      var room := limit - bytes;
      var allowed := chunk[..if |chunk| < room then |chunk| else room];
      Snoc(chunks, allowed);
      assert Joined(chunks + [allowed]) == old(read) + allowed;
      chunks := chunks + [allowed];
      bytes := bytes + |allowed|;
      truncated := truncated || |allowed| < |chunk|;
    }
  }

  function Joined(chunks: seq<Bytes>): Bytes {
    if chunks == [] then [] else Joined(Front(chunks)) + Last(chunks)
  }
}
