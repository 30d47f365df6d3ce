/** The file source: a seekable, chunked reader over one file, backed by the
    chunk cache. The file itself is a byte sequence; a positioned read takes
    a slice of it. */
module File {
  import opened Types
  import opened FCache

  /** fffile_readat: up to `n` bytes of `content` starting at `off`; nothing
      at or past the end of the file. */
  function ReadAt(content: seq<byte>, off: nat, n: nat): (r: seq<byte>)
    ensures |r| <= n
    ensures off < |content| ==> |r| == Min(n, |content| - off)
    ensures off >= |content| ==> r == []
    ensures r != [] ==> off + |r| <= |content| && r == content[off..off + |r|]
  {
    if off >= |content| then [] else content[off..off + Min(n, |content| - off)]
  }

  /** A positive multiple of `a` is at least `a`. */
  lemma {:induction false} MulAtLeast(a: int, k: nat)
    requires a > 0 && k >= 1
    ensures a * k >= a
    decreases k
  {
    if k > 1 {
      MulAtLeast(a, k - 1);
      assert a * k == a * (k - 1) + a;
    }
  }

  /** Adding the divisor does not change the remainder. */
  lemma ModStep(x: int, a: int)
    requires a > 0
    ensures (x + a) % a == x % a
  {
    var q, m := x / a, x % a;
    var q2, m2 := (x + a) / a, (x + a) % a;
    var d := q + 1 - q2;
    assert a * d == m2 - m by {
      assert x == a * q + m;
      assert x + a == a * q2 + m2;
      assert a * d == a * (q + 1) - a * q2;
    }
    if d > 0 { MulAtLeast(a, d); }
    else if d < 0 { MulAtLeast(a, -d); }
  }

  /** ffint_align_floor2 for the power-of-two alignment the configuration
      uses: the largest multiple of `align` not above `n`. */
  function AlignFloor(n: nat, align: nat): (r: nat)
    requires align > 0
    ensures r <= n < r + align
    ensures r % align == 0
    decreases n
  {
    if n < align then 0
    else
      var below := AlignFloor(n - align, align);
      ModStep(below, align);
      below + align
  }

  /** A cache slot either holds nothing or exactly the file bytes at its offset. */
  predicate SlotMatches(content: seq<byte>, b: Buf)
  {
    b.data == [] || (b.off + |b.data| <= |content| && b.data == content[b.off..b.off + |b.data|])
  }

  /** Every slot of the pool holds nothing or the file's own bytes. */
  predicate SlotsMatch(content: seq<byte>, bufs: seq<Buf>)
    decreases |bufs|
  {
    bufs == [] || (SlotMatches(content, bufs[0]) && SlotsMatch(content, bufs[1..]))
  }

  /** Any single slot of a matching pool matches. */
  lemma {:induction false} SlotsMatchAt(content: seq<byte>, bufs: seq<Buf>, k: nat)
    requires SlotsMatch(content, bufs) && k < |bufs|
    ensures SlotMatches(content, bufs[k])
    decreases k
  {
    if k > 0 {
      SlotsMatchAt(content, bufs[1..], k - 1);
    }
  }

  /** Storing a matching slot keeps the pool matching. */
  lemma {:induction false} SlotsMatchStore(content: seq<byte>, bufs: seq<Buf>, k: nat, b: Buf)
    requires SlotsMatch(content, bufs) && k < |bufs| && SlotMatches(content, b)
    ensures SlotsMatch(content, bufs[k := b])
    decreases k
  {
    if k == 0 {
      assert bufs[k := b][1..] == bufs[1..];
    } else {
      SlotsMatchStore(content, bufs[1..], k - 1, b);
      assert bufs[k := b][1..] == bufs[1..][k - 1 := b];
    }
  }

  /** A pool of empty slots matches any file. */
  lemma {:induction false} EmptySlotsMatch(content: seq<byte>, n: nat)
    ensures SlotsMatch(content, seq(n, _ => EmptyBuf))
    decreases n
  {
    if n > 0 {
      EmptySlotsMatch(content, n - 1);
      assert seq(n, _ => EmptyBuf)[1..] == seq(n - 1, _ => EmptyBuf);
    }
  }

  /** struct arlg_file. */
  class FileSource {
    /** The file on disk; None when it cannot be opened. */
    const content: Option<seq<byte>>
    const cache: Cache
    /** fd != FFFILE_NULL */
    var isOpen: bool
    var size: nat
    var cur: nat
    var seek: nat
    var readLast: bool
    var readChunkSize: nat

    /** The file and its recorded size fit the source's uint64. */
    ghost predicate Bounded()
      reads this`size
    {
      size < Uint64Mod && (content.Some? ==> |content.value| < Uint64Mod)
    }

    /** Bounded, and while open every cache slot holds the file's own bytes. */
    ghost predicate Valid()
      reads this`size, this`isOpen, cache`bufs, cache`idx
    {
      && Bounded()
      && cache.Valid()
      && (isOpen ==>
            && content.Some?
            && size == |content.value|
            && |cache.bufs| > 0
            && SlotsMatch(content.value, cache.bufs))
    }

    /** The zero-filled struct embedded in struct archeolog, over a file
        whose size fits the source's uint64. */
    constructor (content: Option<seq<byte>>)
      requires content.Some? ==> |content.value| < Uint64Mod
      ensures Valid() && this.content == content && !isOpen
      ensures cache.bufs == [] && cache.idx == 0
      ensures cur == 0 && seek == 0 && !readLast && readChunkSize == 0 && size == 0
    {
      this.content := content;
      cache := new Cache();
      isOpen, size, cur, seek, readLast, readChunkSize := false, 0, 0, 0, false, 0;
    }

    /** Where the next read starts: the pending seek if there is one. */
    function Position(): nat
      reads this
    {
      if seek != NoOffset then seek else cur
    }

    /** file_open: large chunks, no pending seek, a cache of one slot.
        Fails when the file cannot be opened, or when its size does not fit
        an int64; the descriptor then stays open, with no cache, until
        file_close. */
    method Open(conf: Config) returns (r: ChainR)
      requires Valid() && !isOpen && cache.idx == 0
      modifies this, cache`bufs
      ensures Bounded() && cache.Valid()
      ensures r == Next || r == Err
      ensures r == Err <==> content.None? || |content.value| >= Uint64Mod / 2
      ensures readChunkSize == conf.large && seek == NoOffset
      ensures cur == old(cur) && readLast == old(readLast)
      ensures r == Next ==> Valid() && isOpen && size == |content.value| && cache.bufs == [EmptyBuf]
      ensures content.None? ==> Valid() && !isOpen && cache.bufs == old(cache.bufs)
      ensures content.Some? && r == Err ==> isOpen && size == |content.value| && cache.bufs == old(cache.bufs)
    {
      readChunkSize := conf.large;
      seek := NoOffset;
      if content.None? {
        return Err;
      }
      isOpen := true;
      size := |content.value|;
      if size >= Uint64Mod / 2 {
        return Err;
      }
      cache.Init(1);
      EmptySlotsMatch(content.value, 1);
      return Next;
    }

    /** file_close: release the descriptor and the cache slots; also after a
        failed read left a slot stale. */
    method Close()
      requires Bounded()
      modifies this`isOpen, cache`bufs
      ensures Valid() && !isOpen && cache.bufs == []
    {
      isOpen := false;
      cache.bufs := [];
    }

    /** The source's `ffstr_shift(out, f->cur - b->off)` stays inside the slot:
        false exactly when a fresh read at the aligned-down offset returns
        fewer bytes than lie between that offset and the read position (it
        happens when the chunk size is below the alignment). */
    predicate ShiftInRange(align: nat)
      requires align > 0
      reads this, cache
    {
      var c := Position();
      || (seek == NoOffset && readLast)
      || FindFirst(cache.bufs, c).Some?
      || content.None?
      || (var o := AlignFloor(c, align);
          var n := |ReadAt(content.value, o, readChunkSize)|;
          n == 0 || c - o <= n)
    }

    /** The cache after a miss at `o`: the round-robin slot `idx0` of the
        pool `bufs0` holds the chunk read at `o`, or, when that read is
        empty, keeps its old bytes under the new offset; `idx` moves on. */
    ghost predicate Refilled(bufs0: seq<Buf>, idx0: nat, o: nat)
      reads this`readChunkSize, cache`bufs, cache`idx
    {
      && content.Some? && idx0 < |bufs0|
      && cache.idx == NextIndex(idx0, |bufs0|)
      && var data := ReadAt(content.value, o, readChunkSize);
         cache.bufs == bufs0[idx0 := if data == [] then bufs0[idx0].(off := o) else Buf(data, o)]
    }

    /** file_read: apply a pending seek; report Done after the short read that
        hit the end of the file; otherwise serve the bytes from the read
        position to the end of the covering slot, reading a new aligned chunk
        into the round-robin slot on a miss. */
    method Read(conf: Config) returns (r: ChainR, out: seq<byte>)
      requires Valid() && isOpen && conf.align > 0 && ShiftInRange(conf.align)
      modifies this, cache
      ensures r == Next || r == Done || r == Err
      ensures Bounded() && (r != Err ==> Valid())
      ensures isOpen && size == old(size) && readChunkSize == old(readChunkSize)
      ensures seek == NoOffset
      ensures old(seek) == NoOffset && old(readLast) <==> r == Done
      ensures r == Done ==> out == [] && unchanged(this) && unchanged(cache)
      ensures r == Next ==> old(Position()) <= cur <= size && out == content.value[old(Position())..cur]
      ensures r == Next && old(FindFirst(cache.bufs, Position())).Some? ==>
                var b := old(cache.bufs[FindFirst(cache.bufs, Position()).value]);
                && cur == b.off + |b.data| && readLast == old(readLast)
                && cache.bufs == old(cache.bufs) && cache.idx == old(cache.idx)
                && cache.hits == old(cache.hits) + 1 && cache.misses == old(cache.misses)
      ensures r != Done && old(FindFirst(cache.bufs, Position())).None? ==>
                && |cache.bufs| == old(|cache.bufs|)
                && cache.bufs[old(cache.idx)].off == AlignFloor(old(Position()), conf.align)
                && Refilled(old(cache.bufs), old(cache.idx), AlignFloor(old(Position()), conf.align))
                && cache.misses == old(cache.misses) + 1 && cache.hits == old(cache.hits)
      ensures r != Done && old(FindFirst(cache.bufs, Position())).None? ==>
                (r == Err <==> ReadAt(content.value, AlignFloor(old(Position()), conf.align), readChunkSize) == [])
      ensures r == Next && old(FindFirst(cache.bufs, Position())).None? ==>
                var data := ReadAt(content.value, AlignFloor(old(Position()), conf.align), readChunkSize);
                cur == AlignFloor(old(Position()), conf.align) + |data| && readLast == (|data| < readChunkSize)
      ensures r == Err ==> out == []
    {
      if seek != NoOffset {
        cur := seek;
        seek := NoOffset;
      } else if readLast {
        return Done, [];
      }
      r, out := Serve(conf);
    }

    /** file_read once any seek is applied: bytes from the covering slot, or
        from a fresh chunk on a miss. */
    method Serve(conf: Config) returns (r: ChainR, out: seq<byte>)
      requires Valid() && isOpen && conf.align > 0
      requires FindFirst(cache.bufs, cur).None? ==>
                 var o := AlignFloor(cur, conf.align);
                 var n := |ReadAt(content.value, o, readChunkSize)|;
                 n == 0 || cur - o <= n
      modifies this`cur, this`readLast, cache
      ensures r == Next || r == Err
      ensures Bounded() && (r != Err ==> Valid())
      ensures r == Next ==> old(cur) <= cur <= size && out == content.value[old(cur)..cur]
      ensures r == Next && old(FindFirst(cache.bufs, cur)).Some? ==>
                var b := old(cache.bufs[FindFirst(cache.bufs, cur).value]);
                && cur == b.off + |b.data| && readLast == old(readLast)
                && cache.bufs == old(cache.bufs) && cache.idx == old(cache.idx)
                && cache.hits == old(cache.hits) + 1 && cache.misses == old(cache.misses)
      ensures old(FindFirst(cache.bufs, cur)).Some? ==> r == Next
      ensures old(FindFirst(cache.bufs, cur)).None? ==>
                && |cache.bufs| == old(|cache.bufs|)
                && cache.bufs[old(cache.idx)].off == AlignFloor(old(cur), conf.align)
                && Refilled(old(cache.bufs), old(cache.idx), AlignFloor(old(cur), conf.align))
                && cache.misses == old(cache.misses) + 1 && cache.hits == old(cache.hits)
      ensures old(FindFirst(cache.bufs, cur)).None? ==>
                (r == Err <==> ReadAt(content.value, AlignFloor(old(cur), conf.align), readChunkSize) == [])
      ensures r == Next && old(FindFirst(cache.bufs, cur)).None? ==>
                var data := ReadAt(content.value, AlignFloor(old(cur), conf.align), readChunkSize);
                cur == AlignFloor(old(cur), conf.align) + |data| && readLast == (|data| < readChunkSize)
      ensures r == Err ==> out == [] && cur == old(cur)
    {
      var h := cache.Find(cur);
      if h.Some? {
        out := FromSlot(h.value);
        return Next, out;
      }
      r, out := Fill(conf);
    }

    /** The cache-hit half of file_read: the slot's bytes from the read
        position on; the position moves to the slot's end. */
    method FromSlot(k: nat) returns (out: seq<byte>)
      requires Valid() && isOpen && k < |cache.bufs| && Holds(cache.bufs[k], cur)
      modifies this`cur
      ensures Valid()
      ensures cur == cache.bufs[k].off + |cache.bufs[k].data| && cur <= size
      ensures out == content.value[old(cur)..cur]
    {
      var b := cache.bufs[k];
      SlotsMatchAt(content.value, cache.bufs, k);
      out := b.data[cur - b.off..];
      assert out == content.value[cur..b.off + |b.data|];
      cur := cur + |out|;
    }

    /** The cache-miss half of file_read: read one chunk at the aligned-down
        position into the round-robin slot. The source writes the slot's
        offset before the read, so a failed read leaves the slot stale: the
        old bytes under the new offset. The model makes that write on the
        failure path only, since a successful read overwrites it. */
    method Fill(conf: Config) returns (r: ChainR, out: seq<byte>)
      requires Valid() && isOpen && conf.align > 0
      requires var o := AlignFloor(cur, conf.align);
               var n := |ReadAt(content.value, o, readChunkSize)|;
               n == 0 || cur - o <= n
      modifies this`cur, this`readLast, cache`bufs, cache`idx
      ensures |cache.bufs| == old(|cache.bufs|)
      ensures cache.bufs[old(cache.idx)].off == AlignFloor(old(cur), conf.align)
      ensures Refilled(old(cache.bufs), old(cache.idx), AlignFloor(old(cur), conf.align))
      ensures r == Err <==> ReadAt(content.value, AlignFloor(old(cur), conf.align), readChunkSize) == []
      ensures r == Err ==> out == [] && cur == old(cur) && readLast == old(readLast)
      ensures r == Next ==>
                var data := ReadAt(content.value, AlignFloor(old(cur), conf.align), readChunkSize);
                Valid() && cur == AlignFloor(old(cur), conf.align) + |data| && readLast == (|data| < readChunkSize)
      ensures r == Next || r == Err
      ensures r == Next ==> old(cur) <= cur <= size && out == content.value[old(cur)..cur]
    {
      var k := cache.NextBuf();
      var o := AlignFloor(cur, conf.align);
      var data := ReadAt(content.value, o, readChunkSize);
      if |data| == 0 {
        cache.bufs := cache.bufs[k := cache.bufs[k].(off := o)];
        return Err, [];
      }
      out := Install(k, o, data);
      return Next, out;
    }

    /** A successful read of `data` at `o` into slot `k`: the caller gets the
        bytes from the read position on, and the position moves past them. */
    method Install(k: nat, o: nat, data: seq<byte>) returns (out: seq<byte>)
      requires Valid() && isOpen && k < |cache.bufs|
      requires data != [] && data == ReadAt(content.value, o, |data|)
      requires o <= cur <= o + |data|
      modifies this`cur, this`readLast, cache`bufs
      ensures Valid() && cache.bufs == old(cache.bufs)[k := Buf(data, o)]
      ensures cur == o + |data| && cur <= size && readLast == (|data| < readChunkSize)
      ensures out == content.value[old(cur)..cur]
    {
      out := data[cur - o..];
      assert out == content.value[cur..o + |data|];
      Store(k, Buf(data, o));
      readLast, cur := |data| < readChunkSize, o + |data|;
    }

    /** Put `b`, which holds the file's own bytes, into slot `k`. */
    method Store(k: nat, b: Buf)
      requires Valid() && isOpen && k < |cache.bufs| && SlotMatches(content.value, b)
      modifies cache`bufs
      ensures Valid() && cache.bufs == old(cache.bufs)[k := b]
    {
      SlotsMatchStore(content.value, cache.bufs, k, b);
      cache.bufs := cache.bufs[k := b];
    }

    /** arlg_file_behaviour: sequential access reads large chunks, random
        access small ones. The read-ahead advisory is not modelled and the
        result is always 0. */
    method Behaviour(flags: FBeh, conf: Config) returns (rc: int)
      modifies this`readChunkSize
      ensures old(Valid()) ==> Valid()
      ensures rc == 0
      ensures flags == FBehSeq ==> readChunkSize == conf.large
      ensures flags == FBehRandom ==> readChunkSize == conf.small
    {
      match flags {
        case FBehSeq => readChunkSize := conf.large;
        case FBehRandom => readChunkSize := conf.small;
      }
      return 0;
    }

    /** arlg_file_seek: only records the target; the next read applies it. */
    method Seek(off: nat)
      modifies this`seek
      ensures old(Valid()) ==> Valid()
      ensures seek == off
    {
      seek := off;
    }
  }
}
