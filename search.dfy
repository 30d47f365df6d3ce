/** The arithmetic of the start-offset search: where the next probe goes and
    how a timestamp seen at a line narrows the window [startOff, endOff). */
module Search {
  import opened Types

  /** Where the locator seeks next; `seqScan` when the window is small enough
      to be scanned line by line from its start. */
  datatype Probe = Probe(seqScan: bool, off: nat)

  /** The `seek:` block of startdate_find. The window width is a uint64
      difference and `small * 2` a uint product, both wrapping as in C. */
  function ProbeAt(startOff: nat, endOff: nat, small: nat): (p: Probe)
    requires startOff < Uint64Mod && endOff < Uint64Mod && small < Uint32Mod
    ensures p.off < Uint64Mod
    ensures p.seqScan <==> Sub64(endOff, startOff) <= (small * 2) % Uint32Mod
    ensures p.seqScan ==> p.off == startOff
    ensures startOff <= endOff && !p.seqScan && 2 * small < Uint32Mod ==>
              && startOff <= p.off < endOff
              && p.off == startOff + (endOff - startOff) / 2 - small
  {
    var diff := Sub64(endOff, startOff);
    if diff <= (small * 2) % Uint32Mod then Probe(true, startOff)
    else
      var d := Sub64(diff / 2, small % Uint64Mod);
      // (int64) cast, then ffmax(off, 0)
      var off := if d >= Uint64Mod / 2 then 0 else d;
      Probe(false, Add64(startOff, off))
  }

  /** What the locator remembers of its window. */
  datatype Window = Window(startOff: nat, endOff: nat, startDate: Time, endDate: Time)

  /** The update in startdate_find's check step for a line at `lineOff` with
      timestamp `t`: an earlier line moves the start just past it, a line at
      or after the bound becomes the new end. */
  function Narrow(w: Window, lineOff: nat, t: Time, bound: Time): (v: Window)
    requires lineOff < Uint64Mod
    ensures w.startOff < Uint64Mod && w.endOff < Uint64Mod ==> v.startOff < Uint64Mod && v.endOff < Uint64Mod
    ensures Cmp(t, bound) < 0 ==> v.startDate == t && v.endOff == w.endOff && v.endDate == w.endDate
    ensures Cmp(t, bound) >= 0 ==> v.endDate == t && v.endOff == lineOff && v.startOff == w.startOff && v.startDate == w.startDate
    ensures w.startOff <= lineOff < w.endOff < Uint64Mod ==>
              && w.startOff <= v.startOff <= v.endOff <= w.endOff
              && v.endOff - v.startOff < w.endOff - w.startOff
  {
    if Cmp(t, bound) < 0 then w.(startOff := Add64(lineOff, 1), startDate := t)
    else w.(endOff := lineOff, endDate := t)
  }

  /** A line the search looked at: its offset and its timestamp. */
  datatype Line = Line(off: nat, t: Time)

  /** The window after the search has looked at `lines`, in that order. */
  function NarrowAll(w: Window, lines: seq<Line>, bound: Time): Window
    requires forall k :: 0 <= k < |lines| ==> lines[k].off < Uint64Mod
    decreases |lines|
  {
    if lines == [] then w
    else NarrowAll(Narrow(w, lines[0].off, lines[0].t, bound), lines[1..], bound)
  }

  /** Every line the search looks at lies inside the window of its time. */
  predicate InsideAll(w: Window, lines: seq<Line>, bound: Time)
    requires forall k :: 0 <= k < |lines| ==> lines[k].off < Uint64Mod
    decreases |lines|
  {
    lines == [] ||
    (w.startOff <= lines[0].off < w.endOff &&
     InsideAll(Narrow(w, lines[0].off, lines[0].t, bound), lines[1..], bound))
  }

  /** The recorded dates bracket the bound: the start date (once recorded)
      is before it, the end date (once recorded) at or after it. */
  predicate Bracketed(w: Window, bound: Time)
  {
    && (w.startDate == ZeroTime || Cmp(w.startDate, bound) < 0)
    && (w.endDate == ZeroTime || Cmp(w.endDate, bound) >= 0)
  }

  /** However many lines the search looks at, the recorded dates keep
      bracketing the bound. */
  lemma {:induction false} NarrowAllBracketed(w: Window, lines: seq<Line>, bound: Time)
    requires forall k :: 0 <= k < |lines| ==> lines[k].off < Uint64Mod
    requires Bracketed(w, bound)
    ensures Bracketed(NarrowAll(w, lines, bound), bound)
    decreases |lines|
  {
    if lines != [] {
      NarrowAllBracketed(Narrow(w, lines[0].off, lines[0].t, bound), lines[1..], bound);
    }
  }

  /** Each line looked at inside the window shrinks it by at least one byte,
      so the search can look at no more lines than the window is wide. */
  lemma {:induction false} NarrowAllShrinks(w: Window, lines: seq<Line>, bound: Time)
    requires forall k :: 0 <= k < |lines| ==> lines[k].off < Uint64Mod
    requires w.startOff <= w.endOff < Uint64Mod
    requires InsideAll(w, lines, bound)
    ensures var v := NarrowAll(w, lines, bound);
            && w.startOff <= v.startOff <= v.endOff <= w.endOff
            && v.endOff - v.startOff + |lines| <= w.endOff - w.startOff
    decreases |lines|
  {
    if lines != [] {
      var w' := Narrow(w, lines[0].off, lines[0].t, bound);
      NarrowAllShrinks(w', lines[1..], bound);
    }
  }
}
