/** Configuration: defaults, validation, and the classification of a
    timestamp at the head of a line. The date library's two parsers are
    oracles handed in as values. */
module Conf {
  import opened Types

  /** What one of the library parsers (`_fftime_date_fromstr`,
      `_fftime_time_fromstr`) reports: the bytes it matched and the part of
      the timestamp it decoded, or failure. */
  datatype LibResult = LibOk(width: nat, part: Time) | LibFail

  /** A library parser never claims more bytes than it was given. */
  type LibParser = p: (seq<byte>, DateFmt) -> LibResult
    | forall s, f :: p(s, f).LibOk? ==> p(s, f).width <= |s|
    witness (s: seq<byte>, f: DateFmt) => LibFail

  datatype Parsers = Parsers(date: LibParser, time: LibParser)

  /** The only date layout conf_date tries (the library's yyyy-MM-dd). */
  const DateYmd: nat := 1
  const DateFormats: seq<nat> := [DateYmd]
  const DateFormatLens: seq<nat> := [10]

  const DefaultSmall: nat := 4 * 1024
  const DefaultLarge: nat := 8 * 1024 * 1024
  const DefaultAlign: nat := 4 * 1024

  /** fftime_join1: the date part gives the day, the time part the time of day. */
  function Join(date: Time, time: Time): Time
  {
    Time(date.sec + time.sec, time.nsec)
  }

  /** How far the layout in `c.dateFmt` matches the head of `s`. */
  datatype Scan = Matched(width: nat, t: Time) | Unmatched | BadSplit

  function ScanTimestamp(c: Config, p: Parsers, s: seq<byte>): (r: Scan)
    ensures r.Matched? ==> r.width <= |s|
  {
    var both := c.dateFmt.date != 0 && c.dateFmt.time != 0;
    var d := if c.dateFmt.date != 0 then p.date(s, c.dateFmt) else LibOk(0, ZeroTime);
    if d.LibFail? then Unmatched
    else
      var rest := s[d.width..];
      if both && rest == [] then Unmatched
      else if both && !(rest[0] == Space || rest[0] == LetterT) then BadSplit
      else
        var rest2 := if both then rest[1..] else rest;
        var tm := if c.dateFmt.time != 0 then p.time(rest2, c.dateFmt) else LibOk(0, ZeroTime);
        if tm.LibFail? then Unmatched
        else Matched(|s| - |rest2[tm.width..]|, Join(d.part, tm.part))
  }

  /** date_parse: its return code (>0 matched width, <0 need more data,
      0 not a timestamp) and the decoded time. */
  datatype DateResult = DateResult(code: int, t: Time)

  function DateParse(c: Config, p: Parsers, s: seq<byte>): (r: DateResult)
    ensures -1 <= r.code <= |s|
    ensures r.code < 0 ==> |s| < c.dateLen && ScanTimestamp(c, p, s).Unmatched?
    ensures ScanTimestamp(c, p, s).Unmatched? ==> (r.code < 0 <==> |s| < c.dateLen)
    ensures ScanTimestamp(c, p, s).Matched? ==>
              r.code == ScanTimestamp(c, p, s).width && r.t == ScanTimestamp(c, p, s).t
    ensures ScanTimestamp(c, p, s).BadSplit? ==> r.code == 0
  {
    match ScanTimestamp(c, p, s)
    case Matched(w, t) => DateResult(w, t)
    case BadSplit => DateResult(0, ZeroTime)
    case Unmatched => if |s| < c.dateLen then DateResult(-1, ZeroTime) else DateResult(0, ZeroTime)
  }

  /** The reasons conf_check refuses a configuration. */
  predicate Rejects(c: Config)
  {
    || c.filename.None?
    || (IsSet(c.startDate) && IsSet(c.endDate) && Cmp(c.startDate, c.endDate) > 0)
    || c.large == 0
  }

  /** conf_check as a function of the configuration: None on refusal,
      otherwise the configuration with the small chunk capped by the large. */
  function Validated(c: Config): (r: Option<Config>)
    ensures r.None? <==> Rejects(c)
    ensures r.Some? ==> r.value.filename.Some? && r.value.large > 0
    ensures r.Some? ==> r.value.small <= r.value.large && r.value.small <= c.small
    ensures r.Some? ==> (r.value.small == c.small || r.value.small == c.large)
    ensures r.Some? && IsSet(c.startDate) && IsSet(c.endDate) ==> Cmp(c.startDate, c.endDate) <= 0
    ensures r.Some? ==> r.value == c.(small := r.value.small)
  {
    if Rejects(c) then None else Some(c.(small := Min(c.small, c.large)))
  }

  /** struct arlg_conf while the command line is being applied to it. */
  class ArlgConf {
    var filename: Option<string>
    var filter: seq<byte>
    var startDate: Time
    var endDate: Time
    var small: nat
    var large: nat
    var align: nat
    var dateFmt: DateFmt
    var dateLen: nat
    var maxLines: nat
    var debug: bool

    function Value(): Config
      reads this
    {
      Config(filename, filter, startDate, endDate, small, large, align, dateFmt, dateLen, maxLines, debug)
    }

    /** A zero-filled record, as ffmem_new returns it. */
    constructor ()
      ensures Value() == Config(None, [], ZeroTime, ZeroTime, 0, 0, 0, DateFmt(0, 0), 0, 0, false)
    {
      filename, filter := None, [];
      startDate, endDate := ZeroTime, ZeroTime;
      small, large, align := 0, 0, 0;
      dateFmt, dateLen, maxLines, debug := DateFmt(0, 0), 0, 0, false;
    }

    /** conf_init: the chunk sizes and alignment defaults. */
    method Init()
      modifies this
      ensures small == DefaultSmall && large == DefaultLarge && align == DefaultAlign
      ensures Value() == old(Value()).(small := DefaultSmall, large := DefaultLarge, align := DefaultAlign)
    {
      small := 4 * 1024;
      large := 8 * 1024 * 1024;
      align := 4 * 1024;
    }

    /** conf_check: 1 on refusal (nothing changes), 0 on success (the small
        chunk is capped by the large one). */
    method Check() returns (rc: int)
      modifies this
      ensures rc == 0 || rc == 1
      ensures rc == 1 <==> Validated(old(Value())).None?
      ensures rc == 1 ==> Value() == old(Value())
      ensures rc == 0 ==> Validated(old(Value())) == Some(Value())
    {
      if filename.None? {
        return 1;
      }
      if IsSet(startDate) && IsSet(endDate) && Cmp(startDate, endDate) > 0 {
        return 1;
      }
      if large == 0 {
        return 1;
      }
      small := Min(small, large);
      return 0;
    }

    /** conf_date: detect the date layout of a bound string `s`, then accept a
        single ' ' or 'T' between date and time. Returns the code and the rest
        of `s` still to be read as a time. An unknown layout is not an error. */
    method Date(p: Parsers, s: seq<byte>) returns (rc: int, rest: seq<byte>)
      modifies this
      ensures rc == 0 || rc == 1
      ensures p.date(s, DateFmt(DateYmd, 0)).LibFail? ==>
                rc == 0 && rest == s && Value() == old(Value())
      ensures p.date(s, DateFmt(DateYmd, 0)).LibOk? ==>
                var after := s[p.date(s, DateFmt(DateYmd, 0)).width..];
                && (after == [] ==>
                      rc == 0 && rest == [] &&
                      Value() == old(Value()).(dateFmt := DateFmt(DateYmd, 0), dateLen := 10))
                && (after != [] && (after[0] == Space || after[0] == LetterT) ==>
                      rc == 0 && rest == after[1..] &&
                      Value() == old(Value()).(dateFmt := DateFmt(DateYmd, 0), dateLen := 11))
                && (after != [] && !(after[0] == Space || after[0] == LetterT) ==>
                      rc == 1 && rest == after &&
                      Value() == old(Value()).(dateFmt := DateFmt(DateYmd, 0), dateLen := 10))
    {
      rest := s;
      var i := 0;
      while true
        invariant 0 <= i <= |DateFormats|
        invariant rest == s && Value() == old(Value())
        invariant i > 0 ==> p.date(s, DateFmt(DateYmd, 0)).LibFail?
        decreases |DateFormats| - i
      {
        if i == |DateFormats| {
          return 0, rest;
        }
        var f := DateFmt(DateFormats[i], 0);
        var d := p.date(rest, f);
        if d.LibOk? {
          dateFmt := f;
          dateLen := DateFormatLens[i];
          rest := rest[d.width..];
          if rest != [] {
            if rest[0] == Space || rest[0] == LetterT {
              rest := rest[1..];
              dateLen := dateLen + 1;
            } else {
              return 1, rest;
            }
          }
          break;
        }
        i := i + 1;
      }
      return 0, rest;
    }
  }
}
