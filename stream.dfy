/** The ffstream gather buffer, known here only through the way the parsing
    stages use it: it hands out a contiguous span of at least `minLen` bytes
    when it can, copying only when it already holds a remainder. */
module Stream {
  import opened Types

  /** `held`: bytes copied into the stream's own buffer; `ref`: bytes still
      referenced inside the caller's last input, not yet copied. */
  datatype Stream = Stream(held: seq<byte>, ref: seq<byte>)

  const Empty := Stream([], [])

  /** The bytes the stream presents to its user, in file order. */
  function Pending(s: Stream): seq<byte>
  {
    s.held + s.ref
  }

  /** Result of ffstream_gather_ref: the new stream, the number of input
      bytes taken, and the span `buf` offered to the caller. */
  datatype Gathered = Gathered(s: Stream, taken: nat, buf: seq<byte>)

  function GatherRef(s: Stream, input: seq<byte>, minLen: nat): (g: Gathered)
    ensures g.taken <= |input|
    ensures g.buf == Pending(s) + input[..g.taken]
    ensures Pending(g.s) == g.buf
    ensures |g.buf| < minLen ==> g.taken == |input|
    ensures g.buf == [] ==> g.taken == |input|
    ensures g.s.ref != [] ==> g.taken == |input| && g.s.held == [] && Pending(s) == []
  {
    if Pending(s) == [] then
      Gathered(Stream([], input), |input|, input)
    else
      var have := Pending(s);
      var k := if |have| >= minLen then 0 else Min(|input|, minLen - |have|);
      Gathered(Stream(have + input[..k], []), k, have + input[..k])
  }

  /** ffstream_consume: drop the first `n` pending bytes (all of them if fewer). */
  function Consume(s: Stream, n: nat): (r: Stream)
    ensures Pending(r) == Pending(s)[Min(n, |Pending(s)|)..]
  {
    var p := Pending(s);
    if s.held == [] then Stream([], s.ref[Min(n, |s.ref|)..])
    else Stream(p[Min(n, |p|)..], [])
  }
}
