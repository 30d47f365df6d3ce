/** The filter chain's bookkeeping: the filter vector, the cursor and the two
    chain flags, and how arlg_extract changes them on each outcome. */
module Chain {
  import opened Types

  /** The four filters, in the order arlg_extract lays them out. */
  datatype Iface = FileIf | StartDateIf | DataIf | OutIf

  function Rank(k: Iface): nat
  {
    match k
    case FileIf => 0
    case StartDateIf => 1
    case DataIf => 2
    case OutIf => 3
  }

  /** filter_out has neither open() nor close(); the other three have both. */
  predicate HasOpen(k: Iface) { k != OutIf }
  predicate HasClose(k: Iface) { k != OutIf }

  /** struct filter. */
  datatype Filter = Filter(iface: Iface, isOpened: bool, done: bool)

  const InitialFilters: seq<Filter> := [
    Filter(FileIf, false, false),
    Filter(StartDateIf, false, false),
    Filter(DataIf, false, false),
    Filter(OutIf, false, false)]

  /** The engine's position: filter vector, cursor `i`, CHAIN_FBACK (`back`)
      and CHAIN_FFIRST (`first`). */
  datatype Pos = Pos(filters: seq<Filter>, i: int, back: bool, first: bool)

  /** Filters appear in chain order, so none is listed twice. */
  ghost predicate Ordered(fs: seq<Filter>)
  {
    forall a, b :: 0 <= a < b < |fs| ==> RankAt(fs, a) < RankAt(fs, b)
  }

  /** The chain position of entry `j`'s interface. */
  function RankAt(fs: seq<Filter>, j: int): nat
    requires 0 <= j < |fs|
  {
    Rank(fs[j].iface)
  }

  /** In an ordered vector two entries for one interface are the same entry. */
  lemma OrderedUnique(fs: seq<Filter>, a: int, b: int)
    requires Ordered(fs) && 0 <= a < |fs| && 0 <= b < |fs| && fs[a].iface == fs[b].iface
    ensures a == b
  {
    assert RankAt(fs, a) == RankAt(fs, b);
  }

  /** A vector with the same interfaces entry for entry is ordered too. */
  lemma SameIfacesOrdered(fs: seq<Filter>, gs: seq<Filter>)
    requires Ordered(fs) && |gs| == |fs|
    requires forall j :: 0 <= j < |fs| ==> gs[j].iface == fs[j].iface
    ensures Ordered(gs)
  {
    forall a, b | 0 <= a < b < |gs|
      ensures RankAt(gs, a) < RankAt(gs, b)
    {
      assert RankAt(fs, a) < RankAt(fs, b);
    }
  }

  /** What stays true between iterations of arlg_extract: the cursor is in
      range, the order is kept, the sink is last and never retired, every
      filter before the cursor and every retired filter has been opened, no
      filter past the cursor is retired, a retired filter is met only while
      going backward, and CHAIN_FFIRST means every filter before the cursor
      is retired. */
  ghost predicate Shape(p: Pos)
  {
    && 0 <= p.i < |p.filters|
    && Ordered(p.filters)
    && p.filters[|p.filters| - 1].iface == OutIf
    && !p.filters[|p.filters| - 1].done
    && (forall j :: 0 <= j < |p.filters| && (j < p.i || p.filters[j].done) ==> p.filters[j].isOpened)
    && (forall j :: p.i < j < |p.filters| ==> !p.filters[j].done)
    && (!p.back ==> !p.filters[p.i].done)
    && (p.first ==> forall j :: 0 <= j < p.i ==> p.filters[j].done)
  }

  /** The chain as arlg_extract builds it, cursor at the head, CHAIN_FFIRST set. */
  function Start(): (p: Pos)
    ensures Shape(p) && p.i == 0 && p.first && !p.back
    ensures forall j :: 0 <= j < |p.filters| ==> !p.filters[j].isOpened && !p.filters[j].done
  {
    Pos(InitialFilters, 0, false, true)
  }

  /** `f->opened = 1` before open() is called. */
  function MarkOpened(p: Pos): (q: Pos)
    requires 0 <= p.i < |p.filters|
    ensures q.i == p.i && q.back == p.back && q.first == p.first && |q.filters| == |p.filters|
    ensures q.filters[p.i] == p.filters[p.i].(isOpened := true)
    ensures forall j :: 0 <= j < |p.filters| && j != p.i ==> q.filters[j] == p.filters[j]
  {
    p.(filters := p.filters[p.i := p.filters[p.i].(isOpened := true)])
  }

  /** Marking the cursor's entry opened keeps the shape. */
  lemma MarkOpenedKeepsShape(p: Pos)
    requires Shape(p)
    ensures Shape(MarkOpened(p))
  {
    SameIfacesOrdered(p.filters, MarkOpened(p).filters);
  }

  /** CHAIN_PREV: go back one filter with no input; at the head the filter
      becomes the first of the chain. */
  function Backward(p: Pos): (q: Pos)
    requires 0 < p.i < |p.filters|
    ensures q.filters == p.filters && q.i == p.i - 1 && q.i >= 0 && q.back
    ensures q.i == 0 ==> q.first
    ensures q.i != 0 ==> q.first == p.first
  {
    Pos(p.filters, p.i - 1, true, p.first || p.i - 1 == 0)
  }

  lemma BackwardKeepsShape(p: Pos)
    requires Shape(p) && 0 < p.i && !p.filters[p.i].done
    ensures Shape(Backward(p))
  {
  }

  /** The filters before `i` marked done, the rest untouched (CHAIN_SPLIT). */
  function MarkDoneBefore(fs: seq<Filter>, i: nat): (gs: seq<Filter>)
    ensures |gs| == |fs|
    ensures forall j :: 0 <= j < |fs| ==> gs[j] == (if j < i then fs[j].(done := true) else fs[j])
  {
    seq(|fs|, j requires 0 <= j < |fs| => if j < i then fs[j].(done := true) else fs[j])
  }

  /** CHAIN_NEXT, CHAIN_DONE and CHAIN_SPLIT: clear CHAIN_FBACK and move on;
      DONE also retires this filter, SPLIT this one and every earlier one.
      CHAIN_FFIRST survives only for a retired filter that was first. */
  function Forward(p: Pos, r: ChainR): (q: Pos)
    requires r == Next || r == Done || r == Split
    requires 0 <= p.i < |p.filters|
    ensures |q.filters| == |p.filters| && q.i == p.i + 1 && !q.back
    ensures forall j :: 0 <= j < |p.filters| ==>
              q.filters[j].iface == p.filters[j].iface && q.filters[j].isOpened == p.filters[j].isOpened
    ensures q.filters[p.i].done == (r != Next || p.filters[p.i].done)
    ensures forall j :: 0 <= j < p.i ==> q.filters[j].done == (r == Split || p.filters[j].done)
    ensures forall j :: p.i < j < |p.filters| ==> q.filters[j] == p.filters[j]
    ensures r == Split ==> q.first
    ensures r == Next && !p.filters[p.i].done ==> !q.first
    ensures r == Done ==> q.first == p.first
  {
    var marked := if r == Split then MarkDoneBefore(p.filters, p.i) else p.filters;
    var fs := if r == Next then marked else marked[p.i := marked[p.i].(done := true)];
    var first := r == Split || p.first;
    Pos(fs, p.i + 1, false, fs[p.i].done && first)
  }

  lemma ForwardKeepsShape(p: Pos, r: ChainR)
    requires r == Next || r == Done || r == Split
    requires Shape(p) && p.filters[p.i].isOpened && !p.filters[p.i].done && p.filters[p.i].iface != OutIf
    ensures Shape(Forward(p, r))
  {
    SameIfacesOrdered(p.filters, Forward(p, r).filters);
  }

  /** ffslice_rmT of one entry: the entries after `i` move down by one. */
  function Remove(fs: seq<Filter>, i: nat): (gs: seq<Filter>)
    requires i < |fs|
    ensures |gs| == |fs| - 1
  {
    fs[..i] + fs[i + 1..]
  }

  /** The entries before `i` stay where they are; those after move down one. */
  lemma RemoveAt(fs: seq<Filter>, i: nat)
    requires i < |fs|
    ensures forall j :: 0 <= j < |fs| - 1 ==> Remove(fs, i)[j] == if j < i then fs[j] else fs[j + 1]
  {
    var gs := Remove(fs, i);
    forall j | 0 <= j < |fs| - 1
      ensures gs[j] == if j < i then fs[j] else fs[j + 1]
    {
      if j < i {
        assert gs[j] == fs[..i][j];
      } else {
        assert gs[j] == fs[i + 1..][j - i];
      }
    }
  }

  /** A retired filter met while going backward: remove it from the vector;
      the cursor steps back, or at the head the chain turns forward again. */
  function Retire(p: Pos): (q: Pos)
    requires 0 <= p.i < |p.filters|
    ensures q.filters == Remove(p.filters, p.i)
    ensures p.i > 0 ==> q.i == p.i - 1 && q.back == p.back
    ensures p.i == 0 ==> q.i == 0 && !q.back
    ensures q.first == p.first
  {
    Pos(Remove(p.filters, p.i), if p.i > 0 then p.i - 1 else 0, p.i > 0 && p.back, p.first)
  }

  /** Removing one entry from an ordered vector keeps it ordered, and the
      removed interface is then no longer listed. */
  lemma {:induction false} RemoveKeepsOrder(fs: seq<Filter>, i: nat)
    requires Ordered(fs) && i < |fs|
    ensures Ordered(Remove(fs, i))
    ensures forall j :: 0 <= j < |fs| - 1 ==> Remove(fs, i)[j].iface != fs[i].iface
  {
    var gs := Remove(fs, i);
    RemoveAt(fs, i);
    forall a, b | 0 <= a < b < |gs|
      ensures RankAt(gs, a) < RankAt(gs, b)
    {
      var a' := if a < i then a else a + 1;
      var b' := if b < i then b else b + 1;
      assert RankAt(fs, a') < RankAt(fs, b');
    }
    forall j | 0 <= j < |gs|
      ensures gs[j].iface != fs[i].iface
    {
      var j' := if j < i then j else j + 1;
      assert gs[j] == fs[j'];
      if fs[j'].iface == fs[i].iface {
        OrderedUnique(fs, j', i);
      }
    }
  }

  /** Removing a retired filter keeps the shape, and the removed filter is no
      longer listed anywhere in the vector. */
  lemma {:induction false} RetireKeepsShape(p: Pos)
    requires Shape(p) && p.filters[p.i].done
    ensures Shape(Retire(p))
    ensures forall j :: 0 <= j < |Retire(p).filters| ==> Retire(p).filters[j].iface != p.filters[p.i].iface
  {
    RemoveKeepsOrder(p.filters, p.i);
    RetireEntries(p);
  }

  /** The entry-wise half of RetireKeepsShape: what Shape says about the
      flags of single entries carries over to the shifted vector. */
  lemma RetireEntries(p: Pos)
    requires Shape(p) && p.filters[p.i].done
    ensures var q := Retire(p);
            && 0 <= q.i < |q.filters|
            && q.filters[|q.filters| - 1] == p.filters[|p.filters| - 1]
            && (forall j :: 0 <= j < |q.filters| && (j < q.i || q.filters[j].done) ==> q.filters[j].isOpened)
            && (forall j :: q.i < j < |q.filters| ==> !q.filters[j].done)
            && (!q.back ==> !q.filters[q.i].done)
            && (q.first ==> forall j :: 0 <= j < q.i ==> q.filters[j].done)
  {
    var q := Retire(p);
    RemoveAt(p.filters, p.i);
    var fs, gs := p.filters, q.filters;
    var n := |fs|;
    assert p.back;
    assert p.i < n - 1;
    forall j | 0 <= j < n - 1 && (j < q.i || gs[j].done)
      ensures gs[j].isOpened
    {
      var j' := if j < p.i then j else j + 1;
      assert gs[j] == fs[j'];
    }
    forall j | q.i < j < n - 1
      ensures !gs[j].done
    {
      assert gs[j] == fs[j + 1];
    }
    if !q.back {
      assert gs[0] == fs[1];
    }
    if q.first {
      forall j | 0 <= j < q.i
        ensures gs[j].done
      {
        assert gs[j] == fs[j];
      }
    }
    assert gs[n - 2] == fs[n - 1];
  }

  /** Some entry of the vector is for `k`. */
  ghost predicate Listed(fs: seq<Filter>, k: Iface)
  {
    exists j :: 0 <= j < |fs| && fs[j].iface == k
  }

  /** The entry for `k` has been opened. */
  ghost predicate OpenedIn(fs: seq<Filter>, k: Iface)
  {
    exists j :: 0 <= j < |fs| && fs[j].iface == k && fs[j].isOpened
  }

  /** The entry for `k` is not yet retired. */
  ghost predicate Active(fs: seq<Filter>, k: Iface)
  {
    exists j :: 0 <= j < |fs| && fs[j].iface == k && !fs[j].done
  }

  /** The vector arlg_extract starts from lists every filter, none opened. */
  lemma StartListing()
    ensures forall k :: Listed(InitialFilters, k) && Active(InitialFilters, k)
    ensures forall k :: !OpenedIn(InitialFilters, k)
  {
    forall k
      ensures Listed(InitialFilters, k) && Active(InitialFilters, k)
    {
      assert InitialFilters[Rank(k)].iface == k;
    }
  }

  /** In an ordered vector an entry not yet opened is the only entry for
      its interface, so that interface counts as not opened. */
  lemma FreshEntry(fs: seq<Filter>, i: nat)
    requires Ordered(fs) && i < |fs| && !fs[i].isOpened
    ensures !OpenedIn(fs, fs[i].iface)
  {
    if OpenedIn(fs, fs[i].iface) {
      var j :| 0 <= j < |fs| && fs[j].iface == fs[i].iface && fs[j].isOpened;
      OrderedUnique(fs, j, i);
    }
  }

  /** Marking the cursor's entry opened changes which interfaces count as
      opened by exactly that entry's interface. */
  lemma MarkOpenedListing(p: Pos)
    requires 0 <= p.i < |p.filters|
    ensures var q := MarkOpened(p);
            forall k :: && (Listed(q.filters, k) <==> Listed(p.filters, k))
                        && (Active(q.filters, k) <==> Active(p.filters, k))
                        && (OpenedIn(q.filters, k) <==> OpenedIn(p.filters, k) || k == p.filters[p.i].iface)
  {
    var fs, gs := p.filters, MarkOpened(p).filters;
    forall k
      ensures Listed(gs, k) <==> Listed(fs, k)
      ensures Active(gs, k) <==> Active(fs, k)
      ensures OpenedIn(gs, k) <==> OpenedIn(fs, k) || k == fs[p.i].iface
    {
      if Listed(fs, k) {
        var j :| 0 <= j < |fs| && fs[j].iface == k;
        assert gs[j].iface == k;
      }
      if Active(fs, k) {
        var j :| 0 <= j < |fs| && fs[j].iface == k && !fs[j].done;
        assert gs[j].iface == k && !gs[j].done;
      }
      if Active(gs, k) {
        var j :| 0 <= j < |gs| && gs[j].iface == k && !gs[j].done;
        assert fs[j].iface == k && !fs[j].done;
      }
      if OpenedIn(fs, k) {
        var j :| 0 <= j < |fs| && fs[j].iface == k && fs[j].isOpened;
        assert gs[j].iface == k && gs[j].isOpened;
      }
      if k == fs[p.i].iface {
        assert gs[p.i].iface == k && gs[p.i].isOpened;
      }
      if OpenedIn(gs, k) {
        var j :| 0 <= j < |gs| && gs[j].iface == k && gs[j].isOpened;
        assert j == p.i || (fs[j].iface == k && fs[j].isOpened);
      }
    }
  }

  /** Moving forward lists and opens the same interfaces; an interface still
      active afterwards was active before, and is the cursor's own only when
      it returned CHAIN_NEXT. */
  lemma ForwardListing(p: Pos, r: ChainR)
    requires r == Next || r == Done || r == Split
    requires 0 <= p.i < |p.filters| && Ordered(p.filters)
    ensures var q := Forward(p, r);
            forall k :: && (Listed(q.filters, k) <==> Listed(p.filters, k))
                        && (OpenedIn(q.filters, k) <==> OpenedIn(p.filters, k))
                        && (Active(q.filters, k) ==> Active(p.filters, k) && (k == p.filters[p.i].iface ==> r == Next))
  {
    var fs, gs := p.filters, Forward(p, r).filters;
    forall k
      ensures Listed(gs, k) <==> Listed(fs, k)
      ensures OpenedIn(gs, k) <==> OpenedIn(fs, k)
      ensures Active(gs, k) ==> Active(fs, k) && (k == fs[p.i].iface ==> r == Next)
    {
      if Listed(fs, k) {
        var j :| 0 <= j < |fs| && fs[j].iface == k;
        assert gs[j].iface == k;
      }
      if Listed(gs, k) {
        var j :| 0 <= j < |gs| && gs[j].iface == k;
        assert fs[j].iface == k;
      }
      if OpenedIn(fs, k) {
        var j :| 0 <= j < |fs| && fs[j].iface == k && fs[j].isOpened;
        assert gs[j].iface == k && gs[j].isOpened;
      }
      if OpenedIn(gs, k) {
        var j :| 0 <= j < |gs| && gs[j].iface == k && gs[j].isOpened;
        assert fs[j].iface == k && fs[j].isOpened;
      }
      if Active(gs, k) {
        var j :| 0 <= j < |gs| && gs[j].iface == k && !gs[j].done;
        assert fs[j].iface == k && !fs[j].done;
        if k == fs[p.i].iface {
          OrderedUnique(fs, j, p.i);
        }
      }
    }
  }

  /** Removing entry `i` keeps every other interface's entry. */
  lemma RemoveKeepsOthers(fs: seq<Filter>, i: nat, k: Iface)
    requires i < |fs| && k != fs[i].iface
    ensures Listed(fs, k) ==> Listed(Remove(fs, i), k)
    ensures OpenedIn(fs, k) ==> OpenedIn(Remove(fs, i), k)
  {
    var gs := Remove(fs, i);
    RemoveAt(fs, i);
    if Listed(fs, k) {
      var j :| 0 <= j < |fs| && fs[j].iface == k;
      assert gs[if j < i then j else j - 1] == fs[j];
    }
    if OpenedIn(fs, k) {
      var j :| 0 <= j < |fs| && fs[j].iface == k && fs[j].isOpened;
      assert gs[if j < i then j else j - 1] == fs[j];
    }
  }

  /** Every entry left after removing entry `i` was there before. */
  lemma RemoveAddsNothing(fs: seq<Filter>, i: nat, k: Iface)
    requires i < |fs|
    ensures Listed(Remove(fs, i), k) ==> Listed(fs, k)
    ensures OpenedIn(Remove(fs, i), k) ==> OpenedIn(fs, k)
    ensures Active(Remove(fs, i), k) ==> Active(fs, k)
  {
    var gs := Remove(fs, i);
    RemoveAt(fs, i);
    if Listed(gs, k) {
      var j :| 0 <= j < |gs| && gs[j].iface == k;
      assert fs[if j < i then j else j + 1] == gs[j];
    }
    if OpenedIn(gs, k) {
      var j :| 0 <= j < |gs| && gs[j].iface == k && gs[j].isOpened;
      assert fs[if j < i then j else j + 1] == gs[j];
    }
    if Active(gs, k) {
      var j :| 0 <= j < |gs| && gs[j].iface == k && !gs[j].done;
      assert fs[if j < i then j else j + 1] == gs[j];
    }
  }

  /** Retiring the cursor's entry unlists exactly its interface. */
  lemma RetireListing(p: Pos)
    requires 0 <= p.i < |p.filters| && Ordered(p.filters)
    ensures var q := Retire(p); var k0 := p.filters[p.i].iface;
            forall k :: && (Listed(q.filters, k) <==> Listed(p.filters, k) && k != k0)
                        && (OpenedIn(q.filters, k) <==> OpenedIn(p.filters, k) && k != k0)
                        && (Active(q.filters, k) ==> Active(p.filters, k))
  {
    var fs, gs := p.filters, Remove(p.filters, p.i);
    RemoveKeepsOrder(fs, p.i);
    forall k
      ensures Listed(gs, k) <==> Listed(fs, k) && k != fs[p.i].iface
      ensures OpenedIn(gs, k) <==> OpenedIn(fs, k) && k != fs[p.i].iface
      ensures Active(gs, k) ==> Active(fs, k)
    {
      RemoveAddsNothing(fs, p.i, k);
      if k != fs[p.i].iface {
        RemoveKeepsOthers(fs, p.i, k);
      }
    }
  }
}
