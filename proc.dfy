/** The extraction engine: the data stage that passes lines until the end
    bound, the output sink, and the loop that drives the four filters. */
module Proc {
  import opened Types
  import opened Conf
  import opened Stream
  import opened Lines
  import opened FCache
  import opened File
  import opened Chain
  import opened StartDate

  /** dataproc_open: the data stage has nothing to do without an end bound,
      a line limit or a filter. */
  function DataprocOpen(c: Config): (r: ChainR)
    ensures r == Done || r == Ready
    ensures r == Done <==> !IsSet(c.endDate) && c.maxLines == 0 && c.filter == []
  {
    if !IsSet(c.endDate) && c.maxLines == 0 && c.filter == [] then Done else Ready
  }

  /** No element occurs twice. */
  ghost predicate NoDup<T>(s: seq<T>)
  {
    forall a, b :: 0 <= a < b < |s| ==> s[a] != s[b]
  }

  /** The record of open() and close() calls agrees with the filter vector:
      the vector is in chain order and still holds the sink, no filter was
      opened or closed twice, the closed filters are exactly those removed,
      and the opened ones are those having open() that were marked opened or
      removed. */
  ghost predicate LogsAgree(fs: seq<Filter>, openLog: seq<Iface>, closeLog: seq<Iface>)
  {
    && Ordered(fs) && Listed(fs, OutIf)
    && NoDup(openLog) && NoDup(closeLog)
    && (forall k :: k in closeLog <==> !Listed(fs, k))
    && (forall k :: k in openLog <==> HasOpen(k) && (OpenedIn(fs, k) || !Listed(fs, k)))
  }

  /** Nothing is recorded for the vector arlg_extract starts from. */
  lemma LogsAtStart()
    ensures LogsAgree(InitialFilters, [], [])
  {
    StartListing();
  }

  /** The engine's invariant holds for the chain as arlg_extract lays it
      out, before any open() or close() and with the descriptor closed and
      the cache untouched. */
  lemma EngineAtStart()
    ensures Engine(Start(), [], [], false, 0, true)
  {
    LogsAtStart();
  }

  /** Moving forward keeps the record in agreement. */
  lemma LogsAfterForward(p: Pos, r: ChainR, openLog: seq<Iface>, closeLog: seq<Iface>)
    requires r == Next || r == Done || r == Split
    requires 0 <= p.i < |p.filters|
    requires LogsAgree(p.filters, openLog, closeLog)
    ensures LogsAgree(Forward(p, r).filters, openLog, closeLog)
  {
    ForwardListing(p, r);
    var q := Forward(p, r);
    SameIfacesOrdered(p.filters, q.filters);
  }

  /** The file source agrees with the file filter's entry: the cache is
      untouched before the filter is opened, and the descriptor is open
      while the opened filter is not retired. */
  ghost predicate FileAgrees(fs: seq<Filter>, isOpen: bool, idx: nat)
  {
    && (Listed(fs, FileIf) && !OpenedIn(fs, FileIf) ==> idx == 0)
    && (Active(fs, FileIf) && OpenedIn(fs, FileIf) ==> isOpen)
  }

  /** Moving forward keeps the file source in agreement, and the data stage
      too unless it was split off. */
  lemma AgreesAfterForward(p: Pos, r: ChainR, isOpen: bool, idx: nat, resting: bool)
    requires r == Next || r == Done || r == Split
    requires 0 <= p.i < |p.filters| && Ordered(p.filters)
    requires FileAgrees(p.filters, isOpen, idx)
    requires r == Split ==> p.filters[p.i].iface == DataIf
    requires r != Split ==> (Active(p.filters, DataIf) ==> resting)
    ensures FileAgrees(Forward(p, r).filters, isOpen, idx)
    ensures Active(Forward(p, r).filters, DataIf) ==> resting
  {
    ForwardListing(p, r);
  }

  /** Before an open(): the cursor's entry is the only one for its
      interface, so if that is the file filter the descriptor is closed and
      the cache untouched. */
  lemma BeforeOpen(p: Pos, isOpen: bool, idx: nat)
    requires Shape(p) && !p.filters[p.i].isOpened
    requires isOpen ==> OpenedIn(p.filters, FileIf)
    requires FileAgrees(p.filters, isOpen, idx)
    ensures p.filters[p.i].iface == FileIf ==> !isOpen && idx == 0
  {
    FreshEntry(p.filters, p.i);
    assert Listed(p.filters, p.filters[p.i].iface);
  }

  /** What arlg_extract keeps about the chain between two steps, over the
      engine's position, the record of open() and close() calls, the
      descriptor, the cache's next slot and whether the data stage is at
      rest. */
  ghost predicate Engine(p: Pos, openLog: seq<Iface>, closeLog: seq<Iface>, isOpen: bool, idx: nat,
                         resting: bool)
  {
    && Shape(p)
    && LogsAgree(p.filters, openLog, closeLog)
    && (isOpen ==> OpenedIn(p.filters, FileIf))
    && FileAgrees(p.filters, isOpen, idx)
    && (Active(p.filters, DataIf) ==> resting)
  }

  /** Everything arlg_extract keeps across marking the cursor's filter opened
      and recording its open(), given that file_open opened the descriptor
      when it succeeded and the other open()s left it alone. */
  lemma OpenKeeps(p: Pos, openLog: seq<Iface>, closeLog: seq<Iface>, isOpen: bool, isOpen': bool,
                  idx: nat, resting: bool)
    requires Shape(p) && !p.filters[p.i].isOpened
    requires LogsAgree(p.filters, openLog, closeLog)
    requires isOpen ==> OpenedIn(p.filters, FileIf)
    requires FileAgrees(p.filters, isOpen, idx)
    requires p.filters[p.i].iface != FileIf ==> isOpen' == isOpen
    requires Active(p.filters, DataIf) ==> resting
    ensures var q := MarkOpened(p); var k := p.filters[p.i].iface;
            && LogsAgree(q.filters, openLog + (if HasOpen(k) then [k] else []), closeLog)
            && (isOpen' ==> OpenedIn(q.filters, FileIf))
    ensures var q := MarkOpened(p); var k := p.filters[p.i].iface;
            (k == FileIf ==> isOpen') ==>
              Engine(Pos(q.filters, p.i, p.back, p.first), openLog + (if HasOpen(k) then [k] else []),
                     closeLog, isOpen', idx, resting)
  {
    var k := p.filters[p.i].iface;
    var q := MarkOpened(p);
    assert q == Pos(q.filters, p.i, p.back, p.first);
    MarkOpenedKeepsShape(p);
    FreshEntry(p.filters, p.i);
    MarkOpenedListing(p);
    assert Listed(p.filters, k);
    var ol := openLog + (if HasOpen(k) then [k] else []);
    assert NoDup(ol) by {
      assert k !in openLog;
    }
  }

  /** Everything arlg_extract keeps across closing and removing a retired
      filter, given that file_close closed the descriptor and the other
      close()s left it alone. */
  lemma RetireKeeps(p: Pos, openLog: seq<Iface>, closeLog: seq<Iface>, isOpen: bool, isOpen': bool,
                    idx: nat, resting: bool)
    requires Shape(p) && p.filters[p.i].done
    requires LogsAgree(p.filters, openLog, closeLog)
    requires isOpen ==> OpenedIn(p.filters, FileIf)
    requires FileAgrees(p.filters, isOpen, idx)
    requires p.filters[p.i].iface == FileIf ==> !isOpen'
    requires p.filters[p.i].iface != FileIf ==> isOpen' == isOpen
    requires Active(p.filters, DataIf) ==> resting
    ensures var q := Retire(p); var k := p.filters[p.i].iface;
            HasClose(k) && Engine(Pos(q.filters, q.i, q.back, p.first), openLog, closeLog + [k], isOpen', idx, resting)
  {
    var k := p.filters[p.i].iface;
    var q := Retire(p);
    assert q == Pos(q.filters, q.i, q.back, p.first);
    RetireKeepsShape(p);
    RetireListing(p);
    assert Listed(p.filters, k);
    assert k != OutIf;
    assert NoDup(closeLog + [k]) by {
      assert k !in closeLog;
    }
    assert !Active(q.filters, k) by {
      assert !Listed(q.filters, k);
    }
  }

  /** Everything arlg_extract keeps across moving forward on CHAIN_NEXT,
      CHAIN_DONE or CHAIN_SPLIT from an opened filter other than the sink. */
  lemma ForwardKeeps(p: Pos, r: ChainR, openLog: seq<Iface>, closeLog: seq<Iface>, isOpen: bool,
                     idx: nat, resting: bool)
    requires r == Next || r == Done || r == Split
    requires Engine(p, openLog, closeLog, isOpen, idx, r == Split || resting)
    requires p.filters[p.i].isOpened && !p.filters[p.i].done && p.filters[p.i].iface != OutIf
    requires r == Split ==> p.filters[p.i].iface == DataIf
    ensures Engine(Forward(p, r), openLog, closeLog, isOpen, idx, resting)
  {
    ForwardKeepsShape(p, r);
    LogsAfterForward(p, r, openLog, closeLog);
    AgreesAfterForward(p, r, isOpen, idx, resting);
  }

  /** The interfaces arlg_close closes, in vector order: those of the
      opened entries that have close(). */
  function ToClose(fs: seq<Filter>): seq<Iface>
    decreases |fs|
  {
    if fs == [] then []
    else
      var f := fs[|fs| - 1];
      ToClose(fs[..|fs| - 1]) + (if f.isOpened && HasClose(f.iface) then [f.iface] else [])
  }

  /** arlg_close closes exactly the opened entries having close(). */
  lemma {:induction false} ToCloseMembers(fs: seq<Filter>)
    ensures forall k :: k in ToClose(fs) <==> OpenedIn(fs, k) && HasClose(k)
    decreases |fs|
  {
    if fs != [] {
      var n := |fs| - 1;
      var init := fs[..n];
      ToCloseMembers(init);
      forall k
        ensures k in ToClose(fs) <==> OpenedIn(fs, k) && HasClose(k)
      {
        if OpenedIn(fs, k) {
          var j :| 0 <= j < |fs| && fs[j].iface == k && fs[j].isOpened;
          if j < n {
            assert init[j] == fs[j];
          }
        }
        if OpenedIn(init, k) {
          var j :| 0 <= j < n && init[j].iface == k && init[j].isOpened;
          assert fs[j] == init[j];
        }
      }
    }
  }

  /** In an ordered vector no interface is closed twice by arlg_close. */
  lemma {:induction false} ToCloseNoDup(fs: seq<Filter>)
    requires Ordered(fs)
    ensures NoDup(ToClose(fs))
    decreases |fs|
  {
    if fs != [] {
      var n := |fs| - 1;
      var init := fs[..n];
      assert Ordered(init) by {
        forall a, b | 0 <= a < b < |init|
          ensures RankAt(init, a) < RankAt(init, b)
        {
          assert RankAt(fs, a) < RankAt(fs, b);
        }
      }
      ToCloseNoDup(init);
      ToCloseMembers(init);
      if fs[n].iface in ToClose(init) {
        var j :| 0 <= j < n && init[j].iface == fs[n].iface && init[j].isOpened;
        assert fs[j] == init[j];
        OrderedUnique(fs, j, n);
      }
    }
  }

  /** After arlg_extract, the close() calls of arlg_close complete the
      record: every filter whose open() was called has had its close()
      called, exactly once. */
  lemma CloseCompletes(fs: seq<Filter>, openLog: seq<Iface>, closeLog: seq<Iface>)
    requires LogsAgree(fs, openLog, closeLog)
    ensures NoDup(closeLog + ToClose(fs))
    ensures forall k :: k in closeLog + ToClose(fs) <==> k in openLog
  {
    var ks := ToClose(fs);
    ToCloseMembers(fs);
    ToCloseNoDup(fs);
    forall a, b | 0 <= a < b < |closeLog + ks|
      ensures (closeLog + ks)[a] != (closeLog + ks)[b]
    {
      if a < |closeLog| && b >= |closeLog| {
        var k := ks[b - |closeLog|];
        assert k in ks;
        assert Listed(fs, k);
      } else if b < |closeLog| {
        assert closeLog[a] != closeLog[b];
      } else {
        assert ks[a - |closeLog|] != ks[b - |closeLog|];
      }
    }
  }

  /** The states of dataproc_process's loop (I_FIRST … I_GATHER). */
  datatype DataState = DFirst | DFindLine | DCheck | DGather

  /** What one step of the data stage's loop leads to: another step, or the
      request for more input, the `next:` exit or the `done:` exit. */
  datatype DataAct = Proceed | Hungry | Emit | Cut

  /** How a run of the engine ends: arlg_extract returned 0 (`Success`) or 1
      (`Failure`), or the model stopped it where the source would assert or
      misbehave (`Fault`), or it ran out of steps (`OutOfSteps`). */
  datatype Verdict = Success | Failure | Fault | OutOfSteps

  /** struct archeolog. */
  class Arlg {
    const conf: Config
    const parsers: Parsers
    const file: FileSource
    const sd: Locator
    /** ffilters and chain_flags (CHAIN_FBACK, CHAIN_FFIRST). */
    var filters: seq<Filter>
    var back: bool
    var first: bool
    /** The file offset just past the input the stages have taken. */
    var off: nat
    /** The data stage: `state`, `nxstate`, `stm`, `input2`. */
    var state: DataState
    var next: DataState
    var stm: Stream
    var input2: seq<byte>
    var outTotal: nat
    /** Everything written to standard output. */
    ghost var written: seq<byte>
    /** The filters whose open() and close() have been called, in order. */
    ghost var openLog: seq<Iface>
    ghost var closeLog: seq<Iface>

    /** The zero-filled struct, with arlg_open's configuration. The file's
        content stands for what fffile_open and fffile_readat would see. */
    constructor (conf: Config, parsers: Parsers, content: Option<seq<byte>>)
      requires content.Some? ==> |content.value| < Uint64Mod
      ensures this.conf == conf && this.parsers == parsers && file.content == content
      ensures Initial()
    {
      this.conf, this.parsers := conf, parsers;
      file := new FileSource(content);
      sd := new Locator();
      filters, back, first, off := [], false, false, 0;
      state, next, stm, input2, outTotal := DFirst, DFirst, Empty, [], 0;
      written, openLog, closeLog := [], [], [];
    }

    /** The state before arlg_extract: no filter, nothing opened, read or
        written. */
    ghost predicate Initial()
      reads this, file, file.cache, sd
    {
      && filters == [] && !back && !first && off == 0
      && state == DFirst && stm == Empty && input2 == [] && outTotal == 0
      && written == [] && openLog == [] && closeLog == []
      && file.Valid() && !file.isOpen && file.cache.idx == 0 && file.seek == 0 && !file.readLast
      && sd.Valid() && sd.Resting() && sd.state == StartDate.First && sd.njumps == 0
    }

    /** The data stage is never suspended in the middle of a line. */
    predicate DataResting()
      reads this`state, this`next
    {
      && (state == DFirst || state == DGather)
      && (state == DGather ==> next == DFindLine || next == DCheck)
    }

    /** The bytes the data stage has yet to look at: its gathered remainder
        and the input it was given. */
    function Backlog(chunk: seq<byte>): seq<byte>
      reads this`stm, this`back, this`input2
    {
      Pending(stm) + (if back then input2 else chunk)
    }

    /** The I_CHECK step lets the line at the head of `s` through: no end
        bound is set, or its head is not a timestamp, or its timestamp is not
        after the end bound. */
    ghost predicate Passes(s: seq<byte>)
    {
      || !IsSet(conf.endDate)
      || DateParse(conf, parsers, s).code == 0
      || (DateParse(conf, parsers, s).code > 0 && Cmp(DateParse(conf, parsers, s).t, conf.endDate) <= 0)
    }

    /** The I_CHECK step ends the stage at the line at the head of `s`: its
        timestamp is past the end bound, or, at the end of the file, too few
        bytes are left to tell. */
    ghost predicate Stops(s: seq<byte>)
      reads file`readLast
    {
      var d := DateParse(conf, parsers, s);
      (d.code > 0 && Cmp(d.t, conf.endDate) > 0) || (file.readLast && d.code < 0)
    }

    /** The data stage checks the line at the head of the next span it
        gathers: on its first call, and after a check that asked for more
        bytes. */
    ghost predicate CheckAhead()
      reads this`state, this`next
    {
      state == DFirst || next == DCheck
    }

    /** Offset `q` of `buf` starts a line: the head of the span when the
        span itself starts on a checked line (`head`), or any offset just
        past a newline. */
    ghost predicate Starts(buf: seq<byte>, q: nat, head: bool)
    {
      if q == 0 then head else q <= |buf| && buf[q - 1] == NewLine
    }

    /** Every line that starts inside `buf` before offset `n` was checked
        and let through; the check saw the span from the line's start to the
        end of `buf`. */
    ghost predicate Cleared(buf: seq<byte>, n: nat, head: bool)
    {
      forall q: nat :: q < n && q < |buf| && Starts(buf, q, head) ==> Passes(buf[q..])
    }

    /** Skipping bytes that hold no newline starts no new line. */
    lemma ClearedSkip(buf: seq<byte>, m: nat, n: nat, head: bool)
      requires 0 < m && Cleared(buf, m, head)
      requires forall j :: m - 1 <= j < n - 1 && j < |buf| ==> buf[j] != NewLine
      ensures Cleared(buf, n, head)
    {
      forall q: nat | q < n && q < |buf| && Starts(buf, q, head)
        ensures Passes(buf[q..])
      {
        if q >= m {
          assert false;
        }
      }
    }

    /** What the data stage's loop keeps between steps: nothing is emitted
        before an exit, and in the scanning states `buf` is the gathered
        span, holding a full date's worth of bytes unless all input was
        taken, the view `buf[vpos..]` starts a line, and every line begun
        before the view (and the view's own line, once the line search
        resumes past it) was let through. */
    ghost predicate Scanning(buf: seq<byte>, vpos: nat, backlog: seq<byte>, head: bool)
      reads this`stm, this`input2, this`off, this`state, this`next
    {
      && Pending(stm) + input2 == backlog
      && off < Uint64Mod
      && (state != DFirst ==> next == DFindLine || next == DCheck)
      && (state == DFindLine || state == DCheck ==>
            && buf == Pending(stm) && vpos <= |buf|
            && (buf == [] ==> input2 == [])
            && (|buf| >= conf.dateLen || input2 == []))
      && (state == DFindLine ==> Cleared(buf, vpos + 1, head))
      && (state == DCheck ==> Starts(buf, vpos, head) && Cleared(buf, vpos, head))
    }

    /** Between steps in the gather state, the span to come starts on a
        checked line exactly when the line check is pending, unless nothing
        is left to gather. */
    ghost predicate Poised(head: bool)
      reads this`stm, this`input2, this`state, this`next
    {
      state == DGather ==>
        && (next == DCheck ==> head)
        && (next == DFindLine && head ==> Pending(stm) == [] && input2 == [])
    }

    /** Why the data stage splits: nothing is left, or the line at the view
        stops it. */
    ghost predicate CutAt(buf: seq<byte>, vpos: nat, head: bool)
      reads this`input2, file`readLast
    {
      && vpos <= |buf|
      && (|| (file.readLast && buf == [] && input2 == [])
          || (IsSet(conf.endDate) && Starts(buf, vpos, head) && Stops(buf[vpos..])))
    }

    /** dataproc_process. Returns the outcome and where the span the stage
        last gathered ends: the lines passed on were checked against it. */
    method DataprocProcess(chunk: seq<byte>, fuel: nat) returns (o: Outcome, ghost cut: nat)
      requires DataResting() && off < Uint64Mod
      modifies this`input2, this`state, this`next, this`stm, this`off
      ensures off < Uint64Mod
      ensures o.Returned? ==> o.r == Prev || o.r == Next || o.r == Split
      ensures o.Returned? && o.r != Split ==> DataResting()
      ensures o.Returned? && o.r == Prev ==> o.out == [] && Pending(stm) + input2 == old(Backlog(chunk))
      ensures o.Returned? && o.r == Prev ==>
                || (old(state) == DFirst && chunk == [] && state == DFirst)
                || (input2 == [] && !file.readLast && state == DGather)
      ensures o.Returned? && o.r == Next ==>
                && o.out != [] && o.out + Pending(stm) + input2 == old(Backlog(chunk)) && state == DGather
                && cut == |o.out| + |Pending(stm)|
      ensures o.Returned? && o.r == Next ==> o.out[|o.out| - 1] == NewLine || Pending(stm) == []
      ensures o.Returned? && o.r == Next && Pending(stm) != [] ==> CheckAhead()
      ensures o.Returned? && o.r == Prev && Pending(stm) != [] ==> CheckAhead() == old(CheckAhead())
      ensures o.Returned? && (o.r == Next || o.r == Split) ==>
                && |o.out| <= cut <= |old(Backlog(chunk))| && o.out == old(Backlog(chunk))[..|o.out|]
                && Cleared(old(Backlog(chunk))[..cut], |o.out|, old(CheckAhead()))
      ensures o.Returned? && o.r == Split ==>
                && Pending(stm) + input2 == old(Backlog(chunk)) && cut == |Pending(stm)|
                && (Pending(stm) == [] ==> input2 == [])
                && (|Pending(stm)| >= conf.dateLen || input2 == [])
      ensures o.Returned? && o.r == Split ==>
                || (o.out == old(Backlog(chunk)) && o.out == [] && file.readLast)
                || (&& IsSet(conf.endDate)
                   && Starts(old(Backlog(chunk))[..cut], |o.out|, old(CheckAhead()))
                   && Stops(old(Backlog(chunk))[|o.out|..cut]))
      ensures o.Returned? && o.r == Split && !IsSet(conf.endDate) ==> o.out == old(Backlog(chunk))
      ensures (&& conf.dateLen == 0 && !IsSet(conf.endDate) && !file.readLast
               && old(state) == DGather && old(Backlog(chunk)) == []) ==> o.Stalled?
    {
      ghost var backlog := Backlog(chunk);
      ghost var head := CheckAhead();
      if !back {
        input2 := chunk;
      }
      cut := 0;
      if fuel == 0 {
        return Stalled, cut;
      }
      var steps: nat := fuel - 1;
      if state == DFirst {
        if chunk == [] {
          return Returned(Prev, []), cut;
        }
        state, next := DGather, DCheck;
        if steps == 0 {
          return Stalled, cut;
        }
        steps := steps - 1;
      }
      var act, buf, vpos, stalled := DataLoop(backlog, head, steps);
      if stalled {
        return Stalled, cut;
      }
      o, cut := DataExit(act, buf, vpos, backlog, head);
    }

    /** The exits of dataproc_process's loop: ask for more input, pass the
        lines before the view on (`next:`), or split off (`done:`). */
    method DataExit(act: DataAct, buf: seq<byte>, vpos: nat, ghost backlog: seq<byte>, ghost head: bool)
      returns (o: Outcome, ghost cut: nat)
      requires act != Proceed && Scanning(buf, vpos, backlog, head) && state != DFirst
      requires act == Hungry ==> input2 == [] && !file.readLast && state == DGather && Poised(head)
      requires act == Emit || act == Cut ==>
                 && buf == Pending(stm) && vpos <= |buf| && Cleared(buf, vpos, head)
                 && (buf == [] ==> input2 == []) && (|buf| >= conf.dateLen || input2 == [])
      requires act == Emit ==>
                 && vpos > 0 && state == DGather
                 && (vpos == |buf| || (buf[vpos - 1] == NewLine && next == DCheck))
      requires act == Cut ==> CutAt(buf, vpos, head)
      modifies this`stm
      ensures o.Returned? && (o.r == Prev || o.r == Next || o.r == Split)
      ensures o.r != Split ==> DataResting()
      ensures o.r == Prev ==> o.out == [] && Pending(stm) + input2 == backlog
      ensures o.r == Prev ==> input2 == [] && !file.readLast && state == DGather
      ensures o.r == Next ==>
                && o.out != [] && o.out + Pending(stm) + input2 == backlog && state == DGather
                && cut == |o.out| + |Pending(stm)|
      ensures o.r == Next ==> o.out[|o.out| - 1] == NewLine || Pending(stm) == []
      ensures o.r == Next && Pending(stm) != [] ==> next == DCheck
      ensures o.r == Prev && Pending(stm) != [] ==> CheckAhead() == head
      ensures o.r == Next || o.r == Split ==>
                && |o.out| <= cut <= |backlog| && o.out == backlog[..|o.out|]
                && Cleared(backlog[..cut], |o.out|, head)
      ensures o.r == Split ==>
                && Pending(stm) + input2 == backlog && cut == |Pending(stm)|
                && (Pending(stm) == [] ==> input2 == [])
                && (|Pending(stm)| >= conf.dateLen || input2 == [])
      ensures o.r == Split ==>
                || (o.out == backlog && o.out == [] && file.readLast)
                || (IsSet(conf.endDate) && Starts(backlog[..cut], |o.out|, head) && Stops(backlog[|o.out|..cut]))
      ensures o.r == Split && !IsSet(conf.endDate) ==> o.out == backlog
    {
      cut := 0;
      match act {
        case Hungry =>
          return Returned(Prev, []), cut;
        case Emit =>
          var out := buf[..vpos];
          assert backlog[..|buf|] == buf;
          cut := |buf|;
          stm := Consume(stm, |out|);
          assert out + Pending(stm) == buf;
          return Returned(Next, out), cut;
        case Cut =>
          assert backlog[..|buf|] == buf;
          assert backlog[vpos..|buf|] == buf[vpos..];
          cut := |buf|;
          return Returned(Split, buf[..vpos]), cut;
      }
    }

    /** dataproc_process's loop over the scanning states, from an empty
        span, until a step leads to an exit or the step budget runs out. */
    method DataLoop(ghost backlog: seq<byte>, ghost head: bool, fuel: nat)
      returns (act: DataAct, buf: seq<byte>, vpos: nat, stalled: bool)
      requires state == DGather && Scanning([], 0, backlog, head) && Poised(head)
      modifies this`input2, this`state, this`next, this`stm, this`off
      ensures Scanning(buf, vpos, backlog, head) && state != DFirst
      ensures !stalled ==> act != Proceed
      ensures !stalled && act == Hungry ==> input2 == [] && !file.readLast && state == DGather && Poised(head)
      ensures !stalled && (act == Emit || act == Cut) ==>
                && buf == Pending(stm) && vpos <= |buf| && Cleared(buf, vpos, head)
                && (buf == [] ==> input2 == []) && (|buf| >= conf.dateLen || input2 == [])
      ensures !stalled && act == Emit ==>
                && vpos > 0 && state == DGather
                && (vpos == |buf| || (buf[vpos - 1] == NewLine && next == DCheck))
      ensures !stalled && act == Cut ==> CutAt(buf, vpos, head)
      ensures (conf.dateLen == 0 && !IsSet(conf.endDate) && !file.readLast && backlog == []) ==> stalled
    {
      buf, vpos := [], 0;
      var steps := fuel;
      while true
        invariant Scanning(buf, vpos, backlog, head) && Poised(head)
        invariant state == DGather || state == DFindLine || state == DCheck
        decreases steps
      {
        act, buf, vpos := DataStep(buf, vpos, backlog, head);
        if act != Proceed {
          return act, buf, vpos, false;
        }
        if steps == 0 {
          return act, buf, vpos, true;
        }
        steps := steps - 1;
      }
    }

    /** One pass through the body of dataproc_process's loop in one of the
        scanning states. */
    method DataStep(buf: seq<byte>, vpos: nat, ghost backlog: seq<byte>, ghost head: bool)
      returns (act: DataAct, buf': seq<byte>, vpos': nat)
      requires state == DGather || state == DFindLine || state == DCheck
      requires Scanning(buf, vpos, backlog, head) && Poised(head)
      modifies this`input2, this`state, this`next, this`stm, this`off
      ensures Scanning(buf', vpos', backlog, head) && state != DFirst
      ensures act == Proceed ==> (state == DGather || state == DFindLine || state == DCheck) && Poised(head)
      ensures act == Hungry ==> input2 == [] && !file.readLast && state == DGather && next == old(next) && Poised(head)
      ensures act == Emit || act == Cut ==>
                && buf' == Pending(stm) && vpos' <= |buf'| && Cleared(buf', vpos', head)
                && (buf' == [] ==> input2 == []) && (|buf'| >= conf.dateLen || input2 == [])
      ensures act == Emit ==>
                && vpos' > 0 && state == DGather
                && (vpos' == |buf'| || (buf'[vpos' - 1] == NewLine && next == DCheck))
      ensures act == Cut ==> CutAt(buf', vpos', head)
      ensures (conf.dateLen == 0 && !IsSet(conf.endDate) && !file.readLast && backlog == []) ==> act == Proceed
    {
      buf', vpos' := buf, vpos;
      match state {
        case DGather =>
          act, buf', vpos' := DataGather(buf, vpos, backlog, head);
        case DFindLine =>
          act, vpos' := DataFindLine(buf, vpos, backlog, head);
        case DCheck =>
          act := DataCheck(buf, vpos, backlog, head);
      }
    }

    /** The I_FINDLINE step of the data stage: move the view past the next
        newline and check the line there; without one, pass the span on, or
        at the end of the file split it off, or gather more when the span is
        empty. */
    method DataFindLine(buf: seq<byte>, vpos: nat, ghost backlog: seq<byte>, ghost head: bool)
      returns (act: DataAct, vpos': nat)
      requires state == DFindLine && Scanning(buf, vpos, backlog, head)
      modifies this`state, this`next
      ensures Scanning(buf, vpos', backlog, head) && state != DFirst
      ensures act == Proceed || act == Emit || act == Cut
      ensures act == Proceed ==> (state == DGather || state == DCheck) && Poised(head)
      ensures act == Emit || act == Cut ==> buf == Pending(stm) && vpos' <= |buf| && Cleared(buf, vpos', head)
      ensures act == Emit ==> vpos' > 0 && state == DGather && vpos' == |buf|
      ensures act == Cut ==> file.readLast && buf == [] && input2 == []
      ensures (!file.readLast && backlog == []) ==> act == Proceed
      ensures var k := NewlineFind(buf[vpos..]);
              k >= 0 ==> act == Proceed && vpos' == vpos + k && state == DCheck && buf[vpos' - 1] == NewLine
      ensures var k := NewlineFind(buf[vpos..]);
              k < 0 ==>
                && vpos' == |buf| && state == DGather && next == DFindLine
                && act == (if buf != [] then Emit else if file.readLast then Cut else Proceed)
    {
      var k := NewlineFind(buf[vpos..]);
      if k < 0 {
        ClearedSkip(buf, vpos + 1, |buf|, head);
        vpos' := |buf|;
        state, next := DGather, DFindLine;
        if vpos' == 0 {
          if file.readLast {
            return Cut, vpos';
          }
          return Proceed, vpos';
        }
        return Emit, vpos';
      }
      ClearedSkip(buf, vpos + 1, vpos + k, head);
      vpos' := vpos + k;
      state := DCheck;
      return Proceed, vpos';
    }

    /** The I_CHECK step of the data stage: with an end bound, a line whose
        timestamp is past it is split off; a short view gathers more (or, at
        the end of the file, splits off); anything else resumes the line
        search. */
    method DataCheck(buf: seq<byte>, vpos: nat, ghost backlog: seq<byte>, ghost head: bool) returns (act: DataAct)
      requires state == DCheck && Scanning(buf, vpos, backlog, head)
      modifies this`state, this`next
      ensures Scanning(buf, vpos, backlog, head) && state != DFirst
      ensures act == Proceed || act == Emit || act == Cut
      ensures act == Proceed ==> (state == DGather || state == DFindLine) && Poised(head)
      ensures act == Emit || act == Cut ==> buf == Pending(stm) && vpos <= |buf| && Cleared(buf, vpos, head)
      ensures act == Emit ==> vpos > 0 && state == DGather && next == DCheck && buf[vpos - 1] == NewLine
      ensures act == Cut ==> IsSet(conf.endDate) && Starts(buf, vpos, head) && Stops(buf[vpos..])
      ensures !IsSet(conf.endDate) ==> act == Proceed && state == DFindLine
      ensures var d := DateParse(conf, parsers, buf[vpos..]);
              IsSet(conf.endDate) && d.code < 0 ==>
                if file.readLast then act == Cut
                else state == DGather && next == DCheck && act == (if vpos == 0 then Proceed else Emit)
      ensures var d := DateParse(conf, parsers, buf[vpos..]);
              IsSet(conf.endDate) && d.code == 0 ==> act == Proceed && state == DFindLine
      ensures var d := DateParse(conf, parsers, buf[vpos..]);
              IsSet(conf.endDate) && d.code > 0 ==>
                if Cmp(d.t, conf.endDate) > 0 then act == Cut else act == Proceed && state == DFindLine
    {
      if IsSet(conf.endDate) {
        var d := DateParse(conf, parsers, buf[vpos..]);
        if d.code < 0 {
          if file.readLast {
            return Cut;
          }
          state, next := DGather, DCheck;
          if vpos == 0 {
            return Proceed;
          }
          return Emit;
        } else if d.code == 0 {
          state := DFindLine;
          return Proceed;
        }
        if Cmp(d.t, conf.endDate) > 0 {
          return Cut;
        }
      }
      state := DFindLine;
      return Proceed;
    }

    /** The I_GATHER step of the data stage: take input into the gather
        stream; with a full date's worth of bytes, scan the gathered span in
        the pending state. */
    method DataGather(buf: seq<byte>, vpos: nat, ghost backlog: seq<byte>, ghost head: bool)
      returns (act: DataAct, buf': seq<byte>, vpos': nat)
      requires state == DGather && Scanning(buf, vpos, backlog, head) && Poised(head)
      modifies this`input2, this`state, this`stm, this`off
      ensures Scanning(buf', vpos', backlog, head) && state != DFirst
      ensures act == Proceed || act == Hungry
      ensures act == Proceed ==> (state == DGather || state == DFindLine || state == DCheck) && Poised(head)
      ensures act == Hungry ==> input2 == [] && !file.readLast && state == DGather && Poised(head)
      ensures (conf.dateLen == 0 && !file.readLast && backlog == []) ==> act == Proceed
    {
      var g := GatherRef(stm, input2, conf.dateLen);
      stm := g.s;
      input2 := input2[g.taken..];
      off := Wrap64(off + g.taken);
      if |g.buf| < conf.dateLen {
        if g.s.ref != [] {
          return Proceed, buf, vpos;
        }
        if !file.readLast {
          return Hungry, buf, vpos;
        }
      }
      buf', vpos' := g.buf, 0;
      state := next;
      EntersScan(buf', backlog, head);
      return Proceed, buf', vpos';
    }

    /** A gathered span enters the pending scanning state with its view at
        its head: the head line is checked exactly when it starts one. */
    lemma EntersScan(buf: seq<byte>, backlog: seq<byte>, head: bool)
      requires (state == DFindLine || state == DCheck) && next == state
      requires Pending(stm) + input2 == backlog && off < Uint64Mod && buf == Pending(stm)
      requires (buf == [] ==> input2 == []) && (|buf| >= conf.dateLen || input2 == [])
      requires state == DCheck ==> head
      requires state == DFindLine && head ==> buf == []
      ensures Scanning(buf, 0, backlog, head) && Poised(head)
    {
    }

    /** out_handle: write the input to standard output and count it; the
        sink ends the run once every filter before it is retired, and
        otherwise asks for more. */
    method OutHandle(chunk: seq<byte>) returns (r: ChainR)
      modifies this`written, this`outTotal
      ensures written == old(written) + chunk && outTotal == old(outTotal) + |chunk|
      ensures r == (if first then Fin else Prev)
    {
      written := written + chunk;
      outTotal := outTotal + |chunk|;
      if first {
        return Fin;
      }
      return Prev;
    }

    /** What holds after arlg_extract however it ends: filters stay in chain
        order with the sink listed; open() and close() were each called at
        most once per filter, close() exactly for the filters removed from
        the vector, open() for the filters marked opened; the descriptor is
        open only for an opened file filter; out_total counts every byte
        written. */
    ghost predicate Settled()
      reads this`filters, this`openLog, this`closeLog, this`outTotal, this`written, file`size, file`isOpen
    {
      && LogsAgree(filters, openLog, closeLog)
      && file.Bounded()
      && (file.isOpen ==> OpenedIn(filters, FileIf))
      && outTotal == |written|
    }

    /** The loop invariant of arlg_extract with the cursor at `i`. */
    ghost predicate Running(i: int)
      reads this`filters, this`back, this`first, this`openLog, this`closeLog, this`outTotal, this`written,
            this`off, this`state, this`next, file`size, file`isOpen,
            file.cache`bufs, file.cache`idx, sd`startOff, sd`endOff, sd`offPrev, sd`state, sd`next
    {
      && Engine(Pos(filters, i, back, first), openLog, closeLog, file.isOpen, file.cache.idx, DataResting())
      && Rest() && outTotal == |written|
    }

    /** What the stages need from one another between two steps: offsets in
        range, and the file source and the locator consistent and at rest. */
    ghost predicate Rest()
      reads this`off, file`size, file`isOpen, file.cache`bufs, file.cache`idx,
            sd`startOff, sd`endOff, sd`offPrev, sd`state, sd`next
    {
      off < Uint64Mod && file.Valid() && sd.Valid() && sd.Resting()
    }

    /** `f->opened = 1` and the filter's open(); a filter without open()
        counts as ready. */
    method OpenStage(i: int) returns (r: ChainR)
      requires Running(i) && !filters[i].isOpened
      modifies this`filters, this`openLog, file, file.cache`bufs, sd`endOff, sd`offPrev
      ensures filters == MarkOpened(Pos(old(filters), i, back, first)).filters
      ensures Settled() && (r != Err ==> Running(i))
      ensures r == Done || r == Next || r == Ready || r == Err
      ensures r == Done || r == Next ==> filters[i].iface != OutIf
    {
      var k := filters[i].iface;
      var p := Pos(filters, i, back, first);
      ghost var openLog0, isOpen0 := openLog, file.isOpen;
      BeforeOpen(p, file.isOpen, file.cache.idx);
      filters := MarkOpened(p).filters;
      openLog := openLog + (if HasOpen(k) then [k] else []);
      r := OpenMarked(i, p, openLog0, isOpen0);
    }

    /** The rest of OpenStage once the entry is marked and the call recorded. */
    method OpenMarked(i: int, ghost p: Pos, ghost openLog0: seq<Iface>, ghost isOpen0: bool) returns (r: ChainR)
      requires p.i == i && p.back == back && p.first == first
      requires Shape(p) && !p.filters[p.i].isOpened
      requires LogsAgree(p.filters, openLog0, closeLog)
      requires isOpen0 ==> OpenedIn(p.filters, FileIf)
      requires FileAgrees(p.filters, isOpen0, file.cache.idx)
      requires Active(p.filters, DataIf) ==> DataResting()
      requires filters == MarkOpened(p).filters
      requires openLog == openLog0 + (if HasOpen(p.filters[i].iface) then [p.filters[i].iface] else [])
      requires file.isOpen == isOpen0 && file.Valid() && sd.Valid() && sd.Resting() && off < Uint64Mod
      requires p.filters[i].iface == FileIf ==> !file.isOpen && file.cache.idx == 0
      requires outTotal == |written|
      modifies file, file.cache`bufs, sd`endOff, sd`offPrev
      ensures Settled() && (r != Err ==> Running(i))
      ensures r == Done || r == Next || r == Ready || r == Err
      ensures r == Done || r == Next ==> filters[i].iface != OutIf
    {
      var k := filters[i].iface;
      r := CallOpen(k);
      OpenKeeps(p, openLog0, closeLog, isOpen0, file.isOpen, file.cache.idx, DataResting());
    }

    /** The open() of filter `k` itself: file_open, startdate_open,
        dataproc_open; filter_out has none. */
    method CallOpen(k: Iface) returns (r: ChainR)
      requires file.Valid() && sd.Valid()
      requires k == FileIf ==> !file.isOpen && file.cache.idx == 0
      modifies file, file.cache`bufs, sd`endOff, sd`offPrev
      ensures file.Bounded() && file.cache.idx == old(file.cache.idx)
      ensures r != Err ==> file.Valid()
      ensures sd.Valid()
      ensures k == FileIf ==> (r == Err <==> file.content.None? || |file.content.value| >= Uint64Mod / 2)
                              && (r != Err ==> r == Next && file.isOpen)
                              && (r == Err ==> (file.isOpen <==> file.content.Some?))
      ensures k != FileIf ==> file.isOpen == old(file.isOpen)
      ensures k == StartDateIf ==> r == (if IsSet(conf.startDate) then Ready else Done)
      ensures k == DataIf ==> r == DataprocOpen(conf)
      ensures k == OutIf ==> r == Ready
    {
      match k
      case FileIf =>
        r := file.Open(conf);
      case StartDateIf =>
        r := sd.Open(conf, file);
      case DataIf =>
        r := DataprocOpen(conf);
      case OutIf =>
        r := Ready;
    }

    /** The filter's process() for the entry at the cursor. file_read is
        stopped as a fault when its shift would leave the cache slot. */
    method ProcessStage(i: int, chunk: seq<byte>, fuel: nat) returns (o: Outcome)
      requires Running(i) && filters[i].isOpened && !filters[i].done
      requires conf.align > 0 && conf.small < Uint32Mod
      modifies this`off, this`input2, this`state, this`next, this`stm, this`written, this`outTotal,
               file, file.cache, sd
      ensures Settled()
      ensures o.Returned? && o.r != Err ==>
                && Engine(Pos(filters, i, back, first), openLog, closeLog, file.isOpen, file.cache.idx,
                          o.r == Split || DataResting())
                && Rest()
      ensures o.Returned? && o.r == Split ==> filters[i].iface == DataIf
      ensures filters[i].iface == OutIf ==>
                o.Returned? && o.out == [] && (o.r == Fin <==> first) && (o.r == Prev <==> !first)
                && written == old(written) + chunk
      ensures filters[i].iface != OutIf ==> written == old(written)
      ensures o.Returned? && filters[i].iface != OutIf ==>
                o.r == Prev || o.r == Next || o.r == Done || o.r == Split || o.r == Err
    {
      var k := filters[i].iface;
      assert Active(filters, k) && OpenedIn(filters, k);
      o := CallProcess(k, chunk, fuel);
    }

    /** The process() of filter `k` itself: file_read, startdate_find,
        dataproc_process or out_handle. */
    method CallProcess(k: Iface, chunk: seq<byte>, fuel: nat) returns (o: Outcome)
      requires file.Valid() && sd.Valid() && sd.Resting() && off < Uint64Mod
      requires conf.align > 0 && conf.small < Uint32Mod
      requires k == FileIf ==> file.isOpen
      requires k == DataIf ==> DataResting()
      requires outTotal == |written|
      modifies this`off, this`input2, this`state, this`next, this`stm, this`written, this`outTotal,
               file, file.cache, sd
      ensures file.Bounded() && file.isOpen == old(file.isOpen)
      ensures k != FileIf ==> file.cache.idx == old(file.cache.idx)
      ensures off < Uint64Mod && outTotal == |written|
      ensures sd.Valid()
      ensures o.Returned? && o.r != Err ==> file.Valid() && sd.Resting()
      ensures k != DataIf ==> state == old(state) && next == old(next)
      ensures o.Returned? && o.r != Err && o.r != Split ==> (k == DataIf ==> DataResting())
      ensures o.Returned? && o.r == Split ==> k == DataIf
      ensures k == OutIf ==>
                o.Returned? && o.out == [] && (o.r == Fin <==> first) && (o.r == Prev <==> !first)
                && written == old(written) + chunk
      ensures k != OutIf ==> written == old(written)
      ensures o.Returned? && k != OutIf ==>
                o.r == Prev || o.r == Next || o.r == Done || o.r == Split || o.r == Err
    {
      match k
      case FileIf =>
        if !file.ShiftInRange(conf.align) {
          o := Faulted;
        } else {
          var r, out := file.Read(conf);
          o := Returned(r, out);
        }
      case StartDateIf =>
        ghost var exit, resume;
        o, off, exit, resume := sd.Find(conf, parsers, file, off, chunk, fuel);
      case DataIf =>
        ghost var cut;
        o, cut := DataprocProcess(chunk, fuel);
      case OutIf =>
        var r := OutHandle(chunk);
        o := Returned(r, []);
    }

    /** arlg_extract: lay out the four filters with the cursor at the head
        and CHAIN_FFIRST set, then step until a verdict. Success (the
        source's 0) comes only from the sink's CHAIN_FIN, once every filter
        before it is retired. */
    method Extract(fuel: nat) returns (v: Verdict)
      requires Initial() && conf.align > 0 && conf.small < Uint32Mod
      modifies this, file, file.cache, sd
      ensures Settled()
      ensures v == Success ==> Drained()
    {
      assert Rest() && DataResting();
      var p := Start();
      filters, back, first := p.filters, p.back, p.first;
      StartsRunning();
      v := Drive(fuel);
    }

    /** The chain as laid out, with nothing opened or closed yet, satisfies
        the loop's invariant at the head. */
    lemma StartsRunning()
      requires filters == Start().filters && !back && first
      requires openLog == [] && closeLog == [] && !file.isOpen && file.cache.idx == 0
      requires DataResting() && Rest() && outTotal == |written|
      ensures Running(0)
    {
      EngineAtStart();
      assert Pos(filters, 0, back, first) == Start();
    }

    /** arlg_extract's `for (;;)` from the head of the laid-out chain with no
        input; `fuel` bounds the number of passes. */
    method Drive(fuel: nat) returns (v: Verdict)
      requires Running(0) && conf.align > 0 && conf.small < Uint32Mod
      modifies this`filters, this`back, this`first, this`off, this`input2, this`state, this`next, this`stm,
               this`written, this`outTotal, this`openLog, this`closeLog, file, file.cache, sd
      ensures Settled()
      ensures v == Success ==> Drained()
    {
      var i := 0;
      var inp: seq<byte> := [];
      var steps := fuel;
      while true
        invariant Running(i)
        decreases steps
      {
        if steps == 0 {
          return OutOfSteps;
        }
        steps := steps - 1;
        var verdict;
        ghost var opening, processed;
        verdict, i, inp, opening, processed := ExtractStep(i, inp, fuel);
        if verdict.Some? {
          return verdict.value;
        }
      }
    }

    /** One pass through arlg_extract's loop with the cursor at `i` and input
        `inp`: open the filter if it is not yet opened, then call its
        process(), or close and remove it when it is retired, and act on the
        result. A verdict ends the run. `opening` is the open() result when
        the filter was opened in this pass; CHAIN_DONE and CHAIN_NEXT from
        open() pass the input on unchanged (`out = in; goto chk_ret`). */
    method ExtractStep(i: int, inp: seq<byte>, fuel: nat)
      returns (verdict: Option<Verdict>, i': int, inp': seq<byte>, ghost opening: Option<ChainR>,
               ghost processed: Option<Outcome>)
      requires Running(i) && conf.align > 0 && conf.small < Uint32Mod
      modifies this`filters, this`back, this`first, this`off, this`input2, this`state, this`next, this`stm,
               this`written, this`outTotal, this`openLog, this`closeLog, file, file.cache, sd
      ensures Settled()
      ensures verdict.None? ==> Running(i')
      ensures verdict == Some(Success) ==> Drained()
      ensures Stepped(Pos(old(filters), i, old(back), old(first)), inp, old(closeLog), opening, processed,
                      verdict, i', inp')
    {
      if !filters[i].isOpened {
        var r;
        verdict, i', inp', r, processed := OpenAndRun(i, inp, fuel, Pos(filters, i, back, first));
        opening := Some(r);
      } else {
        verdict, i', inp', processed := RunStage(i, inp, fuel, Pos(filters, i, back, first));
        opening := None;
      }
    }

    /** `f->opened = 1` and open() for the unopened filter at `p`, then, on
        CHAIN_READY, its run. */
    method OpenAndRun(i: int, inp: seq<byte>, fuel: nat, ghost p: Pos)
      returns (verdict: Option<Verdict>, i': int, inp': seq<byte>, opening: ChainR,
               ghost processed: Option<Outcome>)
      requires p == Pos(filters, i, back, first)
      requires Running(i) && !filters[i].isOpened && conf.align > 0 && conf.small < Uint32Mod
      modifies this`filters, this`back, this`first, this`off, this`input2, this`state, this`next, this`stm,
               this`written, this`outTotal, this`openLog, this`closeLog, file, file.cache, sd
      ensures Settled()
      ensures verdict.None? ==> Running(i')
      ensures verdict == Some(Success) ==> Drained()
      ensures opening == Done || opening == Next || opening == Ready || opening == Err
      ensures opening != Ready ==>
                processed.None? && closeLog == old(closeLog) && Advanced(MarkOpened(p), opening, inp, verdict, i', inp')
      ensures opening == Ready ==> Ran(MarkOpened(p), inp, old(closeLog), processed, verdict, i', inp')
    {
      opening := OpenStage(i);
      ghost var q := MarkOpened(p);
      assert Pos(filters, i, back, first) == q;
      if opening != Ready {
        processed := None;
        verdict, i', inp' := Advance(i, opening, inp, q);
        return;
      }
      verdict, i', inp', processed := RunStage(i, inp, fuel, q);
    }

    /** The sink is last and every filter before it is retired: what
        CHAIN_FIN leaves. */
    ghost predicate Drained()
      reads this`filters
    {
      && |filters| > 0 && filters[|filters| - 1].iface == OutIf
      && forall j :: 0 <= j < |filters| - 1 ==> filters[j].done
    }

    /** What one pass did with the entry at `p`: `opening` is Some open()
        result exactly when the entry was not yet opened; a result other
        than CHAIN_READY is acted on at once with the input unchanged,
        otherwise the opened entry is run as Ran says. */
    ghost predicate Stepped(p: Pos, inp: seq<byte>, closeLog0: seq<Iface>, opening: Option<ChainR>,
                            processed: Option<Outcome>, verdict: Option<Verdict>, i': int, inp': seq<byte>)
      reads this`filters, this`back, this`first, this`closeLog
    {
      && 0 <= p.i < |p.filters|
      && (opening.Some? <==> !p.filters[p.i].isOpened)
      && (opening.Some? ==>
            opening.value == Done || opening.value == Next || opening.value == Ready || opening.value == Err)
      && (opening.Some? && opening.value != Ready ==>
            processed.None? && closeLog == closeLog0 && Advanced(MarkOpened(p), opening.value, inp, verdict, i', inp'))
      && (opening == Some(Ready) ==> Ran(MarkOpened(p), inp, closeLog0, processed, verdict, i', inp'))
      && (opening.None? ==> Ran(p, inp, closeLog0, processed, verdict, i', inp'))
    }

    /** What RunStage did with the entry at `p`: a retired entry is closed
        and removed and the input kept; otherwise `processed` is what its
        process() gave, handled as Handled says, and nothing is closed. */
    ghost predicate Ran(p: Pos, inp: seq<byte>, closeLog0: seq<Iface>, processed: Option<Outcome>,
                        verdict: Option<Verdict>, i': int, inp': seq<byte>)
      reads this`filters, this`back, this`first, this`closeLog
    {
      && 0 <= p.i < |p.filters|
      && (processed.None? <==> p.filters[p.i].done)
      && (processed.None? ==>
            && verdict.None? && inp' == inp && closeLog == closeLog0 + [p.filters[p.i].iface]
            && Pos(filters, i', back, first) == Retire(p))
      && (processed.Some? ==> closeLog == closeLog0 && Handled(p, processed.value, verdict, i', inp'))
    }

    /** How a process() outcome is handled: running out of steps and a
        fault end the run; a returned result is acted on as Advanced says. */
    ghost predicate Handled(p: Pos, o: Outcome, verdict: Option<Verdict>, i': int, inp': seq<byte>)
      reads this`filters, this`back, this`first
    {
      && (o == Stalled ==> verdict == Some(OutOfSteps))
      && (o == Faulted ==> verdict == Some(Fault))
      && (o.Returned? ==> Advanced(p, o.r, o.out, verdict, i', inp'))
    }

    /** The opened filter at the cursor: close and remove it when it is
        retired, otherwise call its process() and act on the result. */
    method RunStage(i: int, inp: seq<byte>, fuel: nat, ghost p: Pos)
      returns (verdict: Option<Verdict>, i': int, inp': seq<byte>, ghost processed: Option<Outcome>)
      requires p == Pos(filters, i, back, first)
      requires Running(i) && filters[i].isOpened && conf.align > 0 && conf.small < Uint32Mod
      modifies this`filters, this`back, this`first, this`off, this`input2, this`state, this`next, this`stm,
               this`written, this`outTotal, this`closeLog, file, file.cache, sd
      ensures Settled()
      ensures verdict.None? ==> Running(i')
      ensures verdict == Some(Success) ==> Drained()
      ensures Ran(p, inp, old(closeLog), processed, verdict, i', inp')
    {
      if filters[i].done {
        i' := RetireStage(i);
        return None, i', inp, None;
      }
      var o;
      verdict, i', inp', o := ProcessAndAdvance(i, inp, fuel, p);
      processed := Some(o);
    }

    /** The process() of the live filter at the cursor and `chk_ret:` on
        what it returned. */
    method ProcessAndAdvance(i: int, inp: seq<byte>, fuel: nat, ghost p: Pos)
      returns (verdict: Option<Verdict>, i': int, inp': seq<byte>, o: Outcome)
      requires p == Pos(filters, i, back, first)
      requires Running(i) && filters[i].isOpened && !filters[i].done && conf.align > 0 && conf.small < Uint32Mod
      modifies this`filters, this`back, this`first, this`off, this`input2, this`state, this`next, this`stm,
               this`written, this`outTotal, file, file.cache, sd
      ensures Settled()
      ensures verdict.None? ==> Running(i')
      ensures verdict == Some(Success) ==> Drained()
      ensures Handled(p, o, verdict, i', inp')
    {
      o := ProcessStage(i, inp, fuel);
      match o {
        case Stalled =>
          return Some(OutOfSteps), i, inp, o;
        case Faulted =>
          return Some(Fault), i, inp, o;
        case Returned(r, out) =>
          verdict, i', inp' := Advance(i, r, out, p);
      }
    }

    /** How `chk_ret:` acts on result `r` with output `out` of the filter at
        `p`: CHAIN_PREV goes back with no input, or is a fault at the head;
        CHAIN_NEXT, CHAIN_DONE and CHAIN_SPLIT go forward with `out`;
        CHAIN_FIN is success with every filter before the sink retired; an
        error or a stray CHAIN_READY is a failure. */
    ghost predicate Advanced(p: Pos, r: ChainR, out: seq<byte>, verdict: Option<Verdict>, i': int, inp: seq<byte>)
      reads this`filters, this`back, this`first
    {
      && 0 <= p.i < |p.filters|
      && (r == Prev ==> (verdict.None? <==> p.i > 0))
      && (r == Prev && p.i > 0 ==> Pos(filters, i', back, first) == Backward(p) && inp == [])
      && (r == Prev && p.i == 0 ==> verdict == Some(Fault))
      && (r == Next || r == Done || r == Split ==>
            verdict.None? && inp == out && Pos(filters, i', back, first) == Forward(p, r))
      && (r == Fin ==> verdict == Some(Success) && Drained())
      && (r == Err || r == Ready ==> verdict == Some(Failure))
    }

    /** `chk_ret:` in arlg_extract: act on the result of the filter at the
        cursor. CHAIN_PREV at the head stops the run as a fault, where the
        source's FF_ASSERT(i >= 0) fails. */
    method Advance(i: int, r: ChainR, out: seq<byte>, ghost p: Pos)
      returns (verdict: Option<Verdict>, i': int, inp: seq<byte>)
      requires p == Pos(filters, i, back, first)
      requires 0 <= i < |filters| && Settled()
      requires filters[i].isOpened && !filters[i].done
      requires r == Next || r == Done || r == Split ==> filters[i].iface != OutIf
      requires r == Split ==> filters[i].iface == DataIf
      requires r == Fin ==> filters[i].iface == OutIf && first
      requires r != Err ==>
                 && Engine(Pos(filters, i, back, first), openLog, closeLog, file.isOpen, file.cache.idx,
                           r == Split || DataResting())
                 && Rest()
      modifies this`filters, this`back, this`first
      ensures Settled()
      ensures verdict.None? ==> Running(i')
      ensures Advanced(p, r, out, verdict, i', inp)
    {
      match r {
        case Prev =>
          if i == 0 {
            return Some(Fault), i, [];
          }
          i' := GoBack(i, p);
          return None, i', [];
        case Next | Done | Split =>
          i' := StepOn(i, r, p);
          return None, i', out;
        case Fin =>
          OrderedUnique(filters, i, |filters| - 1);
          return Some(Success), i, [];
        case Err | Ready =>
          return Some(Failure), i, [];
      }
    }

    /** CHAIN_PREV away from the head: back one filter with no input. */
    method GoBack(i: int, ghost p: Pos) returns (i': int)
      requires p == Pos(filters, i, back, first)
      requires Running(i) && 0 < i && !filters[i].done
      modifies this`back, this`first
      ensures Pos(filters, i', back, first) == Backward(p)
      ensures Running(i')
    {
      BackwardKeepsShape(p);
      var q := Backward(Pos(filters, i, back, first));
      back, first := q.back, q.first;
      return q.i;
    }

    /** CHAIN_NEXT, CHAIN_DONE or CHAIN_SPLIT: the engine state the move
        leads to keeps the invariant, and the cursor moves there. */
    method StepOn(i: int, r: ChainR, ghost p: Pos) returns (i': int)
      requires r == Next || r == Done || r == Split
      requires p == Pos(filters, i, back, first)
      requires Engine(p, openLog, closeLog, file.isOpen, file.cache.idx, r == Split || DataResting())
      requires Rest() && outTotal == |written|
      requires p.filters[i].isOpened && !p.filters[i].done && p.filters[i].iface != OutIf
      requires r == Split ==> p.filters[i].iface == DataIf
      modifies this`filters, this`back, this`first
      ensures Pos(filters, i', back, first) == Forward(p, r)
      ensures Running(i')
    {
      ForwardKeeps(p, r, openLog, closeLog, file.isOpen, file.cache.idx, DataResting());
      i' := GoForward(i, r, p);
    }

    /** The move itself: the cursor and the filter flags take their new values. */
    method GoForward(i: int, r: ChainR, ghost p: Pos) returns (i': int)
      requires r == Next || r == Done || r == Split
      requires p == Pos(filters, i, back, first) && 0 <= i < |filters|
      requires Engine(Forward(p, r), openLog, closeLog, file.isOpen, file.cache.idx, DataResting())
      requires Rest() && outTotal == |written|
      modifies this`filters, this`back, this`first
      ensures Pos(filters, i', back, first) == Forward(p, r)
      ensures Running(i')
    {
      var q := Forward(Pos(filters, i, back, first), r);
      filters, back, first, i' := q.filters, q.back, q.first, q.i;
      assert Pos(filters, i', back, first) == Forward(p, r);
    }

    /** arlg_close: the close() of every opened filter still listed, in
        vector order; then the vector and the data stage's stream are
        released. */
    method Close()
      requires file.Bounded()
      modifies this`filters, this`stm, this`closeLog, file`isOpen, file.cache`bufs, sd`stm
      ensures closeLog == old(closeLog) + ToClose(old(filters))
      ensures filters == [] && stm == Empty
      ensures old(Settled()) ==> NoDup(closeLog) && (forall k :: k in closeLog <==> k in openLog)
      ensures old(Settled()) ==> !file.isOpen
    {
      ghost var agree := LogsAgree(filters, openLog, closeLog);
      ghost var isOpen0 := file.isOpen;
      ghost var fileOpened := OpenedIn(filters, FileIf);
      var j := 0;
      while j < |filters|
        invariant 0 <= j <= |filters| && filters == old(filters)
        invariant closeLog == old(closeLog) + ToClose(filters[..j])
        invariant file.Bounded()
        invariant file.isOpen ==> isOpen0 && FileIf !in ToClose(filters[..j])
      {
        var f := filters[j];
        assert filters[..j + 1][..j] == filters[..j];
        if f.isOpened && HasClose(f.iface) {
          CallClose(f.iface);
          closeLog := closeLog + [f.iface];
        }
        j := j + 1;
      }
      assert filters[..j] == filters;
      ToCloseMembers(filters);
      if agree {
        CloseCompletes(filters, openLog, old(closeLog));
      }
      filters, stm := [], Empty;
    }

    /** A retired filter met while going backward: its close(), then its
        removal from the vector. */
    method RetireStage(i: int) returns (i': int)
      requires Running(i) && filters[i].done
      modifies this`filters, this`back, this`closeLog, file`isOpen, file.cache`bufs, sd`stm
      ensures Pos(filters, i', back, first) == Retire(Pos(old(filters), i, old(back), first))
      ensures closeLog == old(closeLog) + [old(filters[i].iface)]
      ensures Running(i')
    {
      var k := filters[i].iface;
      ghost var p := Pos(filters, i, back, first);
      ghost var isOpen0, closeLog0 := file.isOpen, closeLog;
      var q := Retire(Pos(filters, i, back, first));
      filters, back, closeLog, i' := q.filters, q.back, closeLog + [k], q.i;
      CloseRemoved(k, p, closeLog0, isOpen0);
    }

    /** The rest of RetireStage once the entry is removed and the call
        recorded. */
    method CloseRemoved(k: Iface, ghost p: Pos, ghost closeLog0: seq<Iface>, ghost isOpen0: bool)
      requires p.first == first && Shape(p) && p.filters[p.i].done && k == p.filters[p.i].iface
      requires LogsAgree(p.filters, openLog, closeLog0)
      requires isOpen0 ==> OpenedIn(p.filters, FileIf)
      requires FileAgrees(p.filters, isOpen0, file.cache.idx)
      requires Active(p.filters, DataIf) ==> DataResting()
      requires filters == Retire(p).filters && back == Retire(p).back
      requires closeLog == closeLog0 + [k]
      requires file.isOpen == isOpen0 && file.Valid() && sd.Valid() && sd.Resting() && off < Uint64Mod
      requires outTotal == |written|
      modifies file`isOpen, file.cache`bufs, sd`stm
      ensures Running(Retire(p).i)
    {
      CallClose(k);
      RetireKeeps(p, openLog, closeLog0, isOpen0, file.isOpen, file.cache.idx, DataResting());
    }

    /** The close() of filter `k` itself: file_close, startdate_close;
        dataproc_close does nothing and filter_out has none. */
    method CallClose(k: Iface)
      requires file.Bounded()
      modifies file`isOpen, file.cache`bufs, sd`stm
      ensures file.Bounded() && (old(file.Valid()) ==> file.Valid())
      ensures k == FileIf ==> !file.isOpen
      ensures k != FileIf ==> file.isOpen == old(file.isOpen)
    {
      match k
      case FileIf => file.Close();
      case StartDateIf => sd.Close();
      case DataIf =>
      case OutIf =>
    }
  }
}
