/** The file source's chunk cache: a pool of slots, each holding the bytes
    read at one file offset, with round-robin eviction and lookup by the
    offset a slot covers. */
module FCache {
  import opened Types

  /** struct fcache_buf: the bytes a slot holds (its `len` is |data|) and the
      file offset they were read at (NoOffset when never filled). */
  datatype Buf = Buf(data: seq<byte>, off: nat)

  const EmptyBuf := Buf([], NoOffset)

  /** The slot covers file offset `o`. */
  predicate Holds(b: Buf, o: nat)
  {
    b.off <= o < b.off + |b.data|
  }

  /** Index of the first slot covering `o`, the lookup fcache_find performs. */
  function FindFirst(bufs: seq<Buf>, o: nat): (r: Option<nat>)
    ensures r.Some? ==> r.value < |bufs| && Holds(bufs[r.value], o)
    ensures r.Some? ==> forall j :: 0 <= j < r.value ==> !Holds(bufs[j], o)
    ensures r.None? <==> forall j :: 0 <= j < |bufs| ==> !Holds(bufs[j], o)
    decreases |bufs|
  {
    if bufs == [] then None
    else if Holds(bufs[0], o) then Some(0)
    else match FindFirst(bufs[1..], o)
      case None => None
      case Some(k) => Some(k + 1)
  }

  /** A freshly initialised pool covers no offset at all. */
  lemma {:induction false} FreshPoolMisses(n: nat, o: nat)
    ensures FindFirst(seq(n, _ => EmptyBuf), o) == None
  {
    var bufs := seq(n, _ => EmptyBuf);
    forall j | 0 <= j < |bufs| ensures !Holds(bufs[j], o) {
      assert bufs[j] == EmptyBuf;
    }
  }

  /** The round-robin successor of slot `idx` in a pool of `n` slots. */
  function NextIndex(idx: nat, n: nat): (r: nat)
    requires n > 0
    ensures r < n
    ensures idx + 1 < n ==> r == idx + 1
    ensures idx + 1 == n ==> r == 0
  {
    (idx + 1) % n
  }

  /** struct fcache. */
  class Cache {
    var bufs: seq<Buf>
    var idx: nat
    var hits: nat
    var misses: nat

    ghost predicate Valid()
      reads this`bufs, this`idx
    {
      |bufs| > 0 ==> idx < |bufs|
    }

    /** The zero-filled struct embedded in the file source. */
    constructor ()
      ensures Valid() && bufs == [] && idx == 0 && hits == 0 && misses == 0
    {
      bufs, idx, hits, misses := [], 0, 0, 0;
    }

    /** fcache_init: `nbufs` zeroed slots, then each marked as holding nothing.
        (Allocation of the slot memory is not modelled; it cannot fail here.) */
    method Init(nbufs: nat)
      requires idx == 0
      modifies this`bufs
      ensures Valid()
      ensures bufs == seq(nbufs, _ => EmptyBuf)
    {
      bufs := seq(nbufs, _ => Buf([], 0));
      var k := 0;
      while k < nbufs
        invariant 0 <= k <= nbufs && |bufs| == nbufs
        invariant forall j :: 0 <= j < k ==> bufs[j] == EmptyBuf
        invariant forall j :: k <= j < nbufs ==> bufs[j] == Buf([], 0)
      {
        bufs := bufs[k := bufs[k].(off := NoOffset)];
        k := k + 1;
      }
    }

    /** fcache_nextbuf: hand out slot `idx` and advance it round-robin. */
    method NextBuf() returns (k: nat)
      requires Valid() && |bufs| > 0
      modifies this`idx
      ensures Valid()
      ensures k == old(idx) && k < |bufs|
      ensures idx == NextIndex(old(idx), |bufs|)
    {
      k := idx;
      idx := NextIndex(idx, |bufs|);
    }

    /** fcache_find: the first slot covering `o`; counts one hit or one miss. */
    method Find(o: nat) returns (r: Option<nat>)
      requires Valid()
      modifies this`hits, this`misses
      ensures Valid()
      ensures r == FindFirst(bufs, o)
      ensures r.Some? ==> hits == old(hits) + 1 && misses == old(misses)
      ensures r.None? ==> misses == old(misses) + 1 && hits == old(hits)
    {
      var k := 0;
      while k < |bufs|
        invariant 0 <= k <= |bufs|
        invariant forall j :: 0 <= j < k ==> !Holds(bufs[j], o)
      {
        if bufs[k].off <= o && o < bufs[k].off + |bufs[k].data| {
          hits := hits + 1;
          return Some(k);
        }
        k := k + 1;
      }
      misses := misses + 1;
      return None;
    }
  }
}
