/** The start-offset locator: finds the first line whose timestamp is not
    before the start bound by probing offsets of the file, halving a window
    of offsets, and scanning line by line once the window is small. */
module StartDate {
  import opened Types
  import opened Conf
  import opened Stream
  import opened Lines
  import opened File
  import opened Search

  /** The states of startdate_find's loop (I_FIRST … I_DONE). */
  datatype State = First | Gather | FindLine | Check | Found

  /** What one step of the loop leads to: another step, or one of the exits
      (`seek:`, `done:`, the `fin:` reached from the line search (Past) or
      from the gather step at the end of the file (Finish), or the request
      for more input). */
  datatype Act = Again | Seek | Report | Past | Finish | Starve

  /** Where the scan resumes once more input comes: as the call found it,
      since nothing in the call decided otherwise (Untouched); with the
      check of the line at the head of the gathered bytes, whose `view` was
      too short to parse (Recheck); or with the line search (Search). */
  datatype Resume = Untouched | Recheck(view: seq<byte>) | Search

  /** struct arlg_startdate. */
  class Locator {
    var state: State
    /** The state to enter once enough data is gathered; the source keeps it
        in `a->nxstate`, which only this stage uses while it runs. */
    var next: State
    var startOff: nat
    var endOff: nat
    var offPrev: nat
    var startDate: Time
    var endDate: Time
    var njumps: nat
    /** The input left over when the line was found, handed on afterwards. */
    var input: seq<byte>
    var stm: Stream
    var seqScan: bool

    /** The offsets are uint64 values. */
    ghost predicate Valid()
      reads this`startOff, this`endOff, this`offPrev
    {
      startOff < Uint64Mod && endOff < Uint64Mod && offPrev < Uint64Mod
    }

    /** The states a call of Find can leave behind when it does not fail:
        the loop is never suspended in the middle of a line. */
    predicate Resting()
      reads this`state, this`next
    {
      && (state == First || state == Gather || state == Found)
      && (state != First ==> next == FindLine || next == Check)
    }

    /** Why startdate_find asks for the previous filter's data, given the
        probe offset, jump count and file seek before the call: either it
        scheduled a new probe (`seek:`), or the gather step ran out of input
        before the end of the file. */
    ghost predicate Retried(conf: Config, file: FileSource, newOff: nat, prevOff: nat, jumps: nat, seekAt: nat)
      reads this`startOff, this`endOff, this`offPrev, this`njumps, this`stm, this`state, this`next, file`seek, file`readLast
    {
      && state == Gather
      && (|| (&& Valid() && conf.small < Uint32Mod
         && newOff == ProbeAt(startOff, endOff, conf.small).off
         && newOff != prevOff && offPrev == newOff && file.seek == newOff
         && njumps == jumps + 1 && stm == Empty && next == FindLine)
         || (&& !file.readLast
            && offPrev == prevOff && file.seek == seekAt && njumps == jumps))
    }

    /** Why startdate_find fails: the next probe would repeat the previous
        one, or the search finished without ever seeing an end bound. */
    ghost predicate GaveUp(conf: Config, newOff: nat, prevOff: nat)
      reads this`startOff, this`endOff, this`offPrev, this`endDate
    {
      || (&& Valid() && conf.small < Uint32Mod
         && newOff == ProbeAt(startOff, endOff, conf.small).off && newOff == offPrev && offPrev == prevOff)
      || !IsSet(endDate)
    }

    /** What startdate_find promises about the line it hands on (`view`
        with the new `a->off`) when it leaves through `done:` (Report) or
        through `fin:`, where `pos` is the file offset just past the input
        taken: the offset is that of the line's first byte, at or past the
        end of the window when the line search ran past it, and the line's
        own timestamp is the window's end in sequential mode. The `fin:`
        reached from the gather step (Finish) promises only that an end
        bound has been seen. */
    ghost predicate Located(conf: Config, parsers: Parsers, exit: Act, out: seq<byte>, newOff: nat, pos: nat)
      reads this`endOff, this`endDate, this`seqScan
    {
      && (exit == Report || exit == Past || exit == Finish)
      && (exit != Report ==> IsSet(endDate))
      && (exit == Report || exit == Past ==> newOff == Wrap64(pos - |out|))
      && (exit == Report ==>
            && seqScan && newOff == endOff
            && DateParse(conf, parsers, out).code > 0
            && DateParse(conf, parsers, out).t == endDate
            && Cmp(endDate, conf.startDate) >= 0)
      && (exit == Past ==> newOff >= endOff)
    }

    /** The state startdate_find leaves when it hands on a line from the
        input `chunk` it was called with at file offset `off`: the rest of
        the chunk is kept for the next call, and the line is `Located`. */
    ghost predicate Handed(conf: Config, parsers: Parsers, file: FileSource, exit: Act, out: seq<byte>,
                           newOff: nat, chunk: seq<byte>, off: nat)
      reads this`state, this`stm, this`input, this`endOff, this`endDate, this`seqScan, file`readLast
    {
      && state == Found && stm == Empty
      && |input| <= |chunk| && input == chunk[|chunk| - |input|..]
      && Located(conf, parsers, exit, out, newOff, (off + (|chunk| - |input|)) % Uint64Mod)
      && (exit == Finish ==> file.readLast && input == [])
    }

    /** The line search ran past the window: the line `view`, which starts
        at `lineOff` (the offset `cur` just past the input taken, less the
        line's bytes), is at or after the window's end. */
    ghost predicate PastEnd(cur: nat, view: seq<byte>, lineOff: nat)
      reads this`endOff
    {
      lineOff >= endOff && lineOff == Wrap64(cur - |view|)
    }

    /** The sequential scan met the first line not before the start bound:
        its timestamp is the window's end and the line starts at the end. */
    ghost predicate Reported(conf: Config, parsers: Parsers, cur: nat, view: seq<byte>, lineOff: nat)
      reads this`endOff, this`endDate, this`seqScan
    {
      && seqScan && lineOff == endOff && lineOff == Wrap64(cur - |view|)
      && DateParse(conf, parsers, view).code > 0
      && DateParse(conf, parsers, view).t == endDate
      && Cmp(endDate, conf.startDate) >= 0
    }

    /** The facts each exit of startdate_find's loop is taken with: `inp`
        is the input left, `cur` the file offset just past the input taken,
        and `view`/`lineOff` the line and its offset as the loop left them. */
    ghost predicate Leads(conf: Config, parsers: Parsers, file: FileSource, act: Act, inp: seq<byte>,
                          cur: nat, view: seq<byte>, lineOff: nat)
      reads this`endOff, this`endDate, this`seqScan, this`state, file`readLast
    {
      && act != Again
      && (act == Starve ==> !file.readLast && state == Gather)
      && (act == Finish ==> file.readLast && inp == [])
      && (act == Past ==> PastEnd(cur, view, lineOff))
      && (act == Report ==> Reported(conf, parsers, cur, view, lineOff))
    }

    /** The gathered bytes and the pending state agree with `resume`,
        measured from the call's start, where `next` was `next0` and the
        gathered bytes were `pending0`: an untouched scan kept the state and
        only added bytes; a line waiting for its check heads the gathered
        bytes; otherwise the line search is pending. */
    ghost predicate Resumes(conf: Config, parsers: Parsers, resume: Resume, next0: State, pending0: seq<byte>)
      reads this`next, this`stm
    {
      match resume
      case Untouched => next == next0 && pending0 <= Pending(stm)
      case Recheck(v) => next == Check && v <= Pending(stm) && DateParse(conf, parsers, v).code < 0
      case Search => next == FindLine
    }

    /** What the scan keeps between steps for `resume`: the line search is
        entered only when it is pending, and in the scanning states the view
        is the gathered bytes. */
    ghost predicate Tracks(conf: Config, parsers: Parsers, resume: Resume, next0: State, pending0: seq<byte>,
                           view: seq<byte>)
      reads this`state, this`next, this`stm
    {
      && (state == FindLine ==> next == FindLine)
      && (state == FindLine || state == Check ==> view == Pending(stm))
      && Resumes(conf, parsers, resume, next0, pending0)
    }

    function Window(): Search.Window
      reads this`startOff, this`endOff, this`startDate, this`endDate
    {
      Search.Window(startOff, endOff, startDate, endDate)
    }

    /** The zero-filled struct embedded in struct archeolog. */
    constructor ()
      ensures Valid() && Resting() && state == First
      ensures Window() == Search.Window(0, 0, ZeroTime, ZeroTime)
      ensures njumps == 0 && stm == Empty && !seqScan && offPrev == 0
    {
      state, next := First, First;
      startOff, endOff, offPrev := 0, 0, 0;
      startDate, endDate := ZeroTime, ZeroTime;
      njumps, input, stm, seqScan := 0, [], Empty, false;
    }

    /** startdate_open: nothing to do without a start bound; otherwise the
        file switches to small reads and the window is the whole file. */
    method Open(conf: Config, file: FileSource) returns (r: ChainR)
      requires Valid() && file.Valid()
      modifies this`endOff, this`offPrev, file`readChunkSize
      ensures Valid() && file.Valid()
      ensures r == Done || r == Ready
      ensures r == Done <==> !IsSet(conf.startDate)
      ensures r == Done ==> endOff == old(endOff) && offPrev == old(offPrev)
                            && file.readChunkSize == old(file.readChunkSize)
      ensures r == Ready ==> file.readChunkSize == conf.small && endOff == file.size && offPrev == NoOffset
    {
      if !IsSet(conf.startDate) {
        return Done;
      }
      var _ := file.Behaviour(FBehRandom, conf);
      endOff := file.size;
      offPrev := NoOffset;
      return Ready;
    }

    /** startdate_close: release the gather buffer. */
    method Close()
      modifies this`stm
      ensures stm == Empty
    {
      stm := Empty;
    }

    /** The `seek:` exit of startdate_find: compute the next probe from the
        window; fail if it repeats the previous one, otherwise schedule the
        seek and ask the file for data there. */
    method Probe(conf: Config, file: FileSource) returns (o: Outcome, newOff: nat)
      requires Valid() && conf.small < Uint32Mod
      modifies this`seqScan, this`offPrev, this`stm, this`state, this`next, this`njumps, file`seek
      ensures old(file.Valid()) ==> file.Valid()
      ensures Valid() && newOff < Uint64Mod
      ensures var p := ProbeAt(startOff, endOff, conf.small);
              newOff == p.off && seqScan == (old(seqScan) || p.seqScan)
      ensures newOff == old(offPrev) ==>
                && o == Returned(Err, [])
                && offPrev == old(offPrev) && njumps == old(njumps) && file.seek == old(file.seek)
                && stm == old(stm) && state == old(state) && next == old(next)
      ensures newOff != old(offPrev) ==>
                && o == Returned(Prev, [])
                && offPrev == newOff && file.seek == newOff && njumps == old(njumps) + 1
                && stm == Empty && state == Gather && next == FindLine
    {
      var p := ProbeAt(startOff, endOff, conf.small);
      if p.seqScan {
        seqScan := true;
      }
      newOff := p.off;
      if newOff == offPrev {
        return Returned(Err, []), newOff;
      }
      offPrev := newOff;
      stm := Empty;
      state, next := Gather, FindLine;
      file.Seek(newOff);
      njumps := njumps + 1;
      return Returned(Prev, []), newOff;
    }

    /** startdate_find. `off` is the file offset just past the input seen so
        far (`a->off`); the new value is returned with the outcome. */
    method Find(conf: Config, parsers: Parsers, file: FileSource, off: nat, chunk: seq<byte>, fuel: nat)
      returns (o: Outcome, newOff: nat, ghost exit: Act, ghost resume: Resume)
      requires Valid() && Resting() && off < Uint64Mod && conf.small < Uint32Mod
      modifies this, file`seek, file`readChunkSize
      ensures old(file.Valid()) ==> file.Valid()
      ensures Valid() && newOff < Uint64Mod
      ensures o.Returned? ==> o.r == Prev || o.r == Next || o.r == Done || o.r == Err
      ensures o.Returned? && o.r != Err ==> Resting()
      ensures Bracketed(old(Window()), conf.startDate) ==> Bracketed(Window(), conf.startDate)
      ensures o.Returned? && o.r == Prev ==>
                o.out == [] && Retried(conf, file, newOff, old(offPrev), old(njumps), old(file.seek))
      ensures o.Returned? && o.r == Prev ==> exit == Seek || exit == Starve
      ensures o.Returned? && o.r == Prev && exit == Starve ==>
                Resumes(conf, parsers, resume, old(next), old(Pending(stm)))
      ensures o.Returned? && o.r == Err ==> o.out == [] && GaveUp(conf, newOff, old(offPrev))
      ensures o.Returned? && o.r == Next ==> Handed(conf, parsers, file, exit, o.out, newOff, chunk, off)
      ensures o.Returned? && o.r == Done ==>
                old(state) == Found && o.out == old(input) && file.readChunkSize == conf.large
    {
      exit, resume := Again, Untouched;
      if fuel == 0 {
        return Stalled, off, exit, resume;
      }
      if state == First {
        exit := Seek;
        o, newOff := Probe(conf, file);
        return;
      } else if state == Found {
        var _ := file.Behaviour(FBehSeq, conf);
        return Returned(Done, input), off, exit, resume;
      }
      o, newOff, exit, resume := Hunt(conf, parsers, file, off, chunk, fuel - 1);
    }

    /** startdate_find from the gather state: run the loop, then take the
        exit it leads to. */
    method Hunt(conf: Config, parsers: Parsers, file: FileSource, off: nat, chunk: seq<byte>, fuel: nat)
      returns (o: Outcome, newOff: nat, ghost exit: Act, ghost resume: Resume)
      requires Valid() && state == Gather && (next == FindLine || next == Check)
      requires off < Uint64Mod && conf.small < Uint32Mod
      modifies this, file`seek
      ensures old(file.Valid()) ==> file.Valid()
      ensures Valid() && newOff < Uint64Mod
      ensures o.Returned? ==> o.r == Prev || o.r == Next || o.r == Err
      ensures o.Returned? && o.r != Err ==> Resting()
      ensures Bracketed(old(Window()), conf.startDate) ==> Bracketed(Window(), conf.startDate)
      ensures o.Returned? && o.r == Prev ==>
                o.out == [] && Retried(conf, file, newOff, old(offPrev), old(njumps), old(file.seek))
      ensures o.Returned? && o.r == Prev ==> exit == Seek || exit == Starve
      ensures o.Returned? && o.r == Prev && exit == Starve ==>
                Resumes(conf, parsers, resume, old(next), old(Pending(stm)))
      ensures o.Returned? && o.r == Err ==> o.out == [] && GaveUp(conf, newOff, old(offPrev))
      ensures o.Returned? && o.r == Next ==> Handed(conf, parsers, file, exit, o.out, newOff, chunk, off)
    {
      // The source's `view` and `line_off` are uninitialised locals: on the
      // path that finishes from the gather step when no line search or check
      // has run earlier in this call, they hold garbage.
      var view: seq<byte> := *;
      var lineOff: nat := 0;
      lineOff :| lineOff < Uint64Mod;
      var act, stalled, inp, cur;
      act, stalled, inp, cur, view, lineOff, resume := Scan(conf, parsers, file, chunk, off, view, lineOff, fuel);
      if stalled {
        return Stalled, cur, Again, resume;
      }
      exit := act;
      o, newOff := Leave(act, conf, parsers, file, view, lineOff, inp, cur, chunk, off,
                         resume, old(next), old(Pending(stm)));
    }


    /** startdate_find's loop over the scanning states, until a step leads
        to one of the exits or the step budget runs out. */
    method Scan(conf: Config, parsers: Parsers, file: FileSource, chunk: seq<byte>, off: nat,
                view: seq<byte>, lineOff: nat, fuel: nat)
      returns (act: Act, stalled: bool, inp: seq<byte>, cur: nat, view': seq<byte>, lineOff': nat,
               ghost resume: Resume)
      requires Valid() && off < Uint64Mod && lineOff < Uint64Mod
      requires state == Gather || state == FindLine || state == Check
      requires next == FindLine || next == Check
      requires Tracks(conf, parsers, Untouched, next, Pending(stm), view)
      modifies this`startOff, this`endOff, this`startDate, this`endDate, this`stm, this`state, this`next
      ensures Valid() && cur < Uint64Mod && lineOff' < Uint64Mod
      ensures |inp| <= |chunk| && inp == chunk[|chunk| - |inp|..]
      ensures cur == (off + (|chunk| - |inp|)) % Uint64Mod
      ensures Bracketed(old(Window()), conf.startDate) ==> Bracketed(Window(), conf.startDate)
      ensures next == FindLine || next == Check
      ensures !stalled ==> Leads(conf, parsers, file, act, inp, cur, view', lineOff')
      ensures !stalled && act == Starve ==> Resumes(conf, parsers, resume, old(next), old(Pending(stm)))
    {
      inp, cur, view', lineOff', resume := chunk, off, view, lineOff, Untouched;
      var steps := fuel;
      while true
        invariant Valid() && cur < Uint64Mod && lineOff' < Uint64Mod
        invariant |inp| <= |chunk| && inp == chunk[|chunk| - |inp|..]
        invariant cur == Wrap64(off + (|chunk| - |inp|))
        invariant Bracketed(old(Window()), conf.startDate) ==> Bracketed(Window(), conf.startDate)
        invariant state == Gather || state == FindLine || state == Check
        invariant next == FindLine || next == Check
        invariant Tracks(conf, parsers, resume, old(next), old(Pending(stm)), view')
        decreases steps
      {
        ghost var before := inp;
        act, inp, cur, view', lineOff', resume :=
          Step(conf, parsers, file, inp, cur, view', lineOff', resume, old(next), old(Pending(stm)));
        Wrap64Add(off + (|chunk| - |before|), |before| - |inp|);
        if act != Again {
          return act, false, inp, cur, view', lineOff', resume;
        }
        if steps == 0 {
          return act, true, inp, cur, view', lineOff', resume;
        }
        steps := steps - 1;
      }
    }

    /** One pass through the body of startdate_find's loop in one of the
        scanning states. */
    method Step(conf: Config, parsers: Parsers, file: FileSource, inp: seq<byte>, cur: nat,
                view: seq<byte>, lineOff: nat, ghost resume: Resume, ghost next0: State, ghost pending0: seq<byte>)
      returns (act: Act, inp': seq<byte>, cur': nat, view': seq<byte>, lineOff': nat, ghost resume': Resume)
      requires Valid() && cur < Uint64Mod && lineOff < Uint64Mod
      requires state == Gather || state == FindLine || state == Check
      requires next == FindLine || next == Check
      requires Tracks(conf, parsers, resume, next0, pending0, view)
      modifies this`startOff, this`endOff, this`startDate, this`endDate, this`stm, this`state, this`next
      ensures Valid() && cur' < Uint64Mod && lineOff' < Uint64Mod
      ensures |inp'| <= |inp| && inp' == inp[|inp| - |inp'|..]
      ensures cur' == Wrap64(cur + (|inp| - |inp'|))
      ensures Bracketed(old(Window()), conf.startDate) ==> Bracketed(Window(), conf.startDate)
      ensures next == FindLine || next == Check
      ensures act == Again ==> state == Gather || state == FindLine || state == Check
      ensures act != Again ==> Leads(conf, parsers, file, act, inp', cur', view', lineOff')
      ensures act == Again || act == Starve ==> Tracks(conf, parsers, resume', next0, pending0, view')
    {
      inp', cur', view', lineOff', resume' := inp, cur, view, lineOff, resume;
      match state {
        case Gather =>
          act, inp', cur', view' := GatherPass(conf, parsers, file, inp, cur, view, lineOff, resume, next0, pending0);
        case FindLine =>
          act, view', lineOff', resume' := FindLineStep(conf, parsers, view, cur, next0, pending0);
        case Check =>
          act, lineOff', resume' := CheckStep(conf, parsers, view, cur, lineOff, next0, pending0);
      }
    }

    /** The exits of startdate_find's loop. */
    method Leave(act: Act, conf: Config, parsers: Parsers, file: FileSource, view: seq<byte>,
                 lineOff: nat, rest: seq<byte>, cur: nat, ghost chunk: seq<byte>, ghost off: nat,
                 ghost resume: Resume, ghost next0: State, ghost pending0: seq<byte>)
      returns (o: Outcome, newOff: nat)
      requires Valid() && conf.small < Uint32Mod && lineOff < Uint64Mod && cur < Uint64Mod
      requires act == Starve ==> Resumes(conf, parsers, resume, next0, pending0)
      requires |rest| <= |chunk| && rest == chunk[|chunk| - |rest|..]
      requires cur == (off + (|chunk| - |rest|)) % Uint64Mod
      requires act != Seek ==> next == FindLine || next == Check
      requires Leads(conf, parsers, file, act, rest, cur, view, lineOff)
      modifies this`seqScan, this`offPrev, this`stm, this`state, this`next, this`njumps, this`input, file`seek
      ensures old(file.Valid()) ==> file.Valid()
      ensures Valid() && newOff < Uint64Mod
      ensures o.Returned? && (o.r == Prev || o.r == Next || o.r == Err)
      ensures o.r != Err ==> Resting()
      ensures o.r == Prev ==>
                o.out == [] && Retried(conf, file, newOff, old(offPrev), old(njumps), old(file.seek))
      ensures o.r == Err ==> o.out == [] && GaveUp(conf, newOff, old(offPrev))
      ensures o.r == Next ==> input == rest && Handed(conf, parsers, file, act, o.out, newOff, chunk, off)
      ensures o.r == Next && (act == Report || act == Past) ==> o.out == view
      ensures o.r == Prev ==> act == Seek || act == Starve
      ensures act == Starve ==>
                o.r == Prev && stm == old(stm) && next == old(next) && Resumes(conf, parsers, resume, next0, pending0)
    {
      match act {
        case Seek =>
          o, newOff := Probe(conf, file);
        case Starve =>
          o, newOff := Returned(Prev, []), cur;
        case Report =>
          o, newOff := Hand(act, conf, parsers, file, view, lineOff, rest, cur, chunk, off);
        case Past =>
          o, newOff := Hand(act, conf, parsers, file, view, lineOff, rest, cur, chunk, off);
        case Finish =>
          o, newOff := Hand(act, conf, parsers, file, view, lineOff, rest, cur, chunk, off);
      }
    }

    /** The exits that hand on a line: `done:`, or `fin:` when an end bound
        has been seen. */
    method Hand(act: Act, conf: Config, parsers: Parsers, file: FileSource, view: seq<byte>,
                lineOff: nat, rest: seq<byte>, cur: nat, ghost chunk: seq<byte>, ghost off: nat)
      returns (o: Outcome, newOff: nat)
      requires act == Report || act == Past || act == Finish
      requires lineOff < Uint64Mod && cur < Uint64Mod
      requires |rest| <= |chunk| && rest == chunk[|chunk| - |rest|..]
      requires cur == (off + (|chunk| - |rest|)) % Uint64Mod
      requires Leads(conf, parsers, file, act, rest, cur, view, lineOff)
      modifies this`stm, this`state, this`input
      ensures newOff < Uint64Mod
      ensures o.Returned? && (o.r == Next || o == Returned(Err, []))
      ensures o.r == Err ==> !IsSet(endDate) && unchanged(this)
      ensures o.r == Next ==> input == rest && Handed(conf, parsers, file, act, o.out, newOff, chunk, off)
      ensures o.r == Next && (act == Report || act == Past) ==> o.out == view
    {
      if act == Report {
        o, newOff := Success(view, lineOff, rest);
      } else {
        o, newOff := Fin(view, lineOff, rest, cur);
      }
    }

    /** The I_GATHER step with only what one pass of the loop needs of it. */
    method GatherPass(conf: Config, parsers: Parsers, file: FileSource, inp: seq<byte>, cur: nat, view: seq<byte>,
                      lineOff: nat, ghost resume: Resume, ghost next0: State, ghost pending0: seq<byte>)
      returns (act: Act, inp': seq<byte>, cur': nat, view': seq<byte>)
      requires state == Gather && (next == FindLine || next == Check)
      requires Resumes(conf, parsers, resume, next0, pending0)
      modifies this`stm, this`state
      ensures |inp'| <= |inp| && inp' == inp[|inp| - |inp'|..] && cur' == Wrap64(cur + (|inp| - |inp'|))
      ensures act == Again ==> state == Gather || state == FindLine || state == Check
      ensures act != Again ==> Leads(conf, parsers, file, act, inp', cur', view', lineOff)
      ensures act == Again || act == Starve ==> Tracks(conf, parsers, resume, next0, pending0, view')
    {
      act, inp', cur', view' := GatherStep(conf, parsers, file, inp, cur, view, resume, next0, pending0);
    }

    /** The I_GATHER step: take input into the gather stream; with a full
        date's worth of bytes move on to the pending state, otherwise ask
        for more input or, at the end of the file, finish. */
    method GatherStep(conf: Config, parsers: Parsers, file: FileSource, inp: seq<byte>, cur: nat, view: seq<byte>,
                      ghost resume: Resume, ghost next0: State, ghost pending0: seq<byte>)
      returns (act: Act, inp': seq<byte>, cur': nat, view': seq<byte>)
      requires state == Gather && (next == FindLine || next == Check)
      requires Resumes(conf, parsers, resume, next0, pending0)
      modifies this`stm, this`state
      ensures |inp'| <= |inp| && inp' == inp[|inp| - |inp'|..] && cur' == Wrap64(cur + (|inp| - |inp'|))
      ensures act == Again || act == Finish || act == Starve
      ensures act == Starve ==> !file.readLast && state == Gather
      ensures act == Finish ==> file.readLast && inp' == []
      ensures var g := GatherRef(old(stm), inp, conf.dateLen);
              && stm == g.s && inp' == inp[g.taken..] && cur' == Wrap64(cur + g.taken)
              && (|g.buf| >= conf.dateLen ==> act == Again && state == next && view' == g.buf)
              && (|g.buf| < conf.dateLen ==> state == Gather && view' == view && inp' == [])
              && (|g.buf| < conf.dateLen && g.s.ref != [] ==> act == Again)
              && (|g.buf| < conf.dateLen && g.s.ref == [] ==>
                    (if file.readLast then act == Finish else act == Starve))
      ensures Tracks(conf, parsers, resume, next0, pending0, view')
    {
      var g := GatherRef(stm, inp, conf.dateLen);
      stm := g.s;
      inp' := inp[g.taken..];
      cur' := Wrap64(cur + g.taken);
      view' := view;
      if |g.buf| < conf.dateLen {
        if g.s.ref != [] {
          return Again, inp', cur', view';
        }
        if file.readLast && inp' == [] {
          return Finish, inp', cur', view';
        }
        return Starve, inp', cur', view';
      }
      view' := g.buf;
      state := next;
      return Again, inp', cur', view';
    }

    /** The I_FINDLINE step: past the head of the file, skip to just after
        the first newline (dropping the gathered bytes when there is none);
        a line at or past the end of the window finishes the search. */
    method FindLineStep(conf: Config, parsers: Parsers, view: seq<byte>, cur: nat,
                        ghost next0: State, ghost pending0: seq<byte>)
      returns (act: Act, view': seq<byte>, lineOff: nat, ghost resume: Resume)
      requires state == FindLine && next == FindLine && view == Pending(stm)
      modifies this`stm, this`state, this`next
      ensures lineOff < Uint64Mod
      ensures act == Again || act == Past
      ensures Wrap64(cur - |view|) == 0 ==>
                view' == view && lineOff == 0 && stm == old(stm) && next == old(next)
      ensures var k := NewlineFind(view);
              Wrap64(cur - |view|) != 0 && k < 0 ==>
                act == Again && stm == Empty && state == Gather && next == FindLine
      ensures var k := NewlineFind(view);
              Wrap64(cur - |view|) != 0 && k >= 0 ==>
                && view' == view[k..] && stm == Consume(old(stm), k) && next == old(next)
                && lineOff == Wrap64(cur - |view'|)
      ensures act == Past ==> PastEnd(cur, view', lineOff) && state == old(state)
      ensures act == Again && state != Gather ==> lineOff < endOff && state == Check
      ensures act == Again ==> Tracks(conf, parsers, resume, next0, pending0, view')
    {
      resume := Search;
      view' := view;
      lineOff := Wrap64(cur - |view|);
      if lineOff != 0 {
        var k := NewlineFind(view);
        if k < 0 {
          stm := Empty;
          state, next := Gather, FindLine;
          return Again, view', lineOff, resume;
        }
        view' := view[k..];
        stm := Consume(stm, k);
        lineOff := Wrap64(cur - |view'|);
      }
      if lineOff >= endOff {
        return Past, view', lineOff, resume;
      }
      state := Check;
      return Again, view', lineOff, resume;
    }

    /** The I_CHECK step: classify the timestamp at the head of `view` and
        narrow the window by it; in sequential mode an earlier line moves on
        to the next line and a later one ends the search. */
    method CheckStep(conf: Config, parsers: Parsers, view: seq<byte>, cur: nat, lineOff: nat,
                     ghost next0: State, ghost pending0: seq<byte>)
      returns (act: Act, lineOff': nat, ghost resume: Resume)
      requires Valid() && lineOff < Uint64Mod && state == Check && view == Pending(stm)
      modifies this`startOff, this`endOff, this`startDate, this`endDate, this`stm, this`state, this`next
      ensures Valid() && lineOff' < Uint64Mod
      ensures Bracketed(old(Window()), conf.startDate) ==> Bracketed(Window(), conf.startDate)
      ensures act == Again || act == Report || act == Seek
      ensures act == Report ==> Reported(conf, parsers, cur, view, lineOff')
      ensures var d := DateParse(conf, parsers, view);
              d.code <= 0 ==> act == Again && lineOff' == lineOff && Window() == old(Window()) && state == Gather
      ensures var d := DateParse(conf, parsers, view);
              d.code < 0 ==> next == Check && stm == old(stm)
      ensures var d := DateParse(conf, parsers, view);
              d.code == 0 ==> next == FindLine && stm == Consume(old(stm), conf.dateLen)
      ensures var d := DateParse(conf, parsers, view);
              d.code > 0 ==>
                && lineOff' == Wrap64(cur - |view|)
                && Window() == Narrow(old(Window()), lineOff', d.t, conf.startDate)
                && (Cmp(d.t, conf.startDate) < 0 && seqScan ==>
                      act == Again && state == Gather && next == FindLine
                      && stm == Consume(old(stm), conf.dateLen))
                && (Cmp(d.t, conf.startDate) >= 0 && seqScan ==>
                      act == Report && state == old(state) && next == old(next) && stm == old(stm))
                && (!seqScan ==>
                      act == Seek && state == old(state) && next == old(next) && stm == old(stm))
      ensures act == Again ==> Tracks(conf, parsers, resume, next0, pending0, view)
    {
      resume := Search;
      var d := DateParse(conf, parsers, view);
      if d.code < 0 {
        state, next := Gather, Check;
        return Again, lineOff, Recheck(view);
      } else if d.code == 0 {
        stm := Consume(stm, conf.dateLen);
        state, next := Gather, FindLine;
        return Again, lineOff, resume;
      }
      lineOff' := Wrap64(cur - |view|);
      NarrowBy(conf, d.t, lineOff');
      act := After(conf, d.t);
    }

    /** The narrowing in the I_CHECK step: a timestamp `t` found at
        `lineOff` moves the start of the window past the line or its end to
        the line. */
    method NarrowBy(conf: Config, t: Time, lineOff: nat)
      requires Valid() && lineOff < Uint64Mod
      modifies this`startOff, this`endOff, this`startDate, this`endDate
      ensures Valid()
      ensures Window() == Narrow(old(Window()), lineOff, t, conf.startDate)
    {
      var w := Narrow(Window(), lineOff, t, conf.startDate);
      startOff, endOff, startDate, endDate := w.startOff, w.endOff, w.startDate, w.endDate;
    }

    /** What the I_CHECK step does after narrowing: in sequential mode an
        earlier line moves on to the next line and a later one ends the
        search; otherwise the locator seeks again. */
    method After(conf: Config, t: Time) returns (act: Act)
      modifies this`stm, this`state, this`next
      ensures Cmp(t, conf.startDate) < 0 && seqScan ==>
                act == Again && state == Gather && next == FindLine
                && stm == Consume(old(stm), conf.dateLen)
      ensures Cmp(t, conf.startDate) >= 0 && seqScan ==>
                act == Report && state == old(state) && next == old(next) && stm == old(stm)
      ensures !seqScan ==>
                act == Seek && state == old(state) && next == old(next) && stm == old(stm)
    {
      if Cmp(t, conf.startDate) < 0 {
        if seqScan {
          stm, state, next := Consume(stm, conf.dateLen), Gather, FindLine;
          return Again;
        }
      } else if seqScan {
        return Report;
      }
      return Seek;
    }

    /** The `fin:` exit: finishing is an error unless a line at or after the
        bound has been seen. */
    method Fin(view: seq<byte>, lineOff: nat, rest: seq<byte>, off: nat) returns (o: Outcome, newOff: nat)
      modifies this`stm, this`state, this`input
      ensures !IsSet(endDate) ==> o == Returned(Err, []) && newOff == off && unchanged(this)
      ensures IsSet(endDate) ==>
                o == Returned(Next, view) && newOff == lineOff && stm == Empty && state == Found && input == rest
    {
      if !IsSet(endDate) {
        return Returned(Err, []), off;
      }
      o, newOff := Success(view, lineOff, rest);
    }

    /** The `done:` exit: hand on the found line and keep the rest of the
        input for the next call. */
    method Success(view: seq<byte>, lineOff: nat, rest: seq<byte>) returns (o: Outcome, newOff: nat)
      modifies this`stm, this`state, this`input
      ensures o == Returned(Next, view) && newOff == lineOff
      ensures stm == Empty && state == Found && input == rest
    {
      stm := Empty;
      state := Found;
      input := rest;
      return Returned(Next, view), lineOff;
    }
  }
}
