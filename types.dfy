/** Vocabulary shared by every stage of the extraction engine: bytes, the
    outcomes a filter returns, timestamps and the configuration record. */
module Types {

  newtype byte = x: int | 0 <= x < 256

  const NewLine: byte := 10
  const Space: byte := 32
  const LetterT: byte := 84

  /** `(uint64)-1`, the value the source uses for "no offset" and "no seek". */
  const NoOffset: nat := 0xFFFF_FFFF_FFFF_FFFF
  const Uint64Mod: nat := 0x1_0000_0000_0000_0000
  const Uint32Mod: nat := 0x1_0000_0000

  datatype Option<T> = None | Some(value: T)

  /** enum CHAIN_R: what a filter's open() or process() tells the engine. */
  datatype ChainR = Done | Split | Prev | Next | Err | Fin | Ready

  /** How one call of a filter's process() ends: with a CHAIN_R code and its
      output, by running out of the step budget the model gives every loop
      (`Stalled`), or at a point where the source asserts or has undefined
      behaviour (`Faulted`). */
  datatype Outcome = Returned(r: ChainR, out: seq<byte>) | Stalled | Faulted

  /** enum FBEH_E: read-pattern hint given to the file source. */
  datatype FBeh = FBehSeq | FBehRandom

  /** fftime: seconds and nanoseconds; `sec == 0` stands for "bound absent". */
  datatype Time = Time(sec: int, nsec: nat)

  const ZeroTime := Time(0, 0)

  predicate IsSet(t: Time) { t.sec != 0 }

  /** fftime_cmp: lexicographic on (sec, nsec). */
  function Cmp(a: Time, b: Time): (c: int)
    ensures -1 <= c <= 1
    ensures c == 0 <==> a == b
    ensures c < 0 <==> a.sec < b.sec || (a.sec == b.sec && a.nsec < b.nsec)
    ensures c > 0 <==> a.sec > b.sec || (a.sec == b.sec && a.nsec > b.nsec)
  {
    if a.sec < b.sec then -1
    else if a.sec > b.sec then 1
    else if a.nsec < b.nsec then -1
    else if a.nsec > b.nsec then 1
    else 0
  }

  /** uint64 subtraction, wrapping like C's unsigned arithmetic. */
  function Sub64(a: nat, b: nat): (r: nat)
    requires a < Uint64Mod && b < Uint64Mod
    ensures r < Uint64Mod
    ensures b <= a ==> r == a - b
    ensures a < b ==> r == Uint64Mod + a - b
  {
    (a - b) % Uint64Mod
  }

  /** An integer brought into uint64 range the way C's unsigned arithmetic
      does: reduced modulo 2^64. */
  function Wrap64(x: int): (r: nat)
    ensures r < Uint64Mod
    ensures 0 <= x < Uint64Mod ==> r == x
    ensures Uint64Mod <= x < 2 * Uint64Mod ==> r == x - Uint64Mod
    ensures x < 0 && 0 <= x + Uint64Mod ==> r == x + Uint64Mod
  {
    x % Uint64Mod
  }

  /** Reducing before or after adding gives the same uint64. */
  lemma Wrap64Add(x: int, y: int)
    ensures Wrap64(Wrap64(x) + y) == Wrap64(x + y)
  {
    var q := x / Uint64Mod;
    var z := Wrap64(x) + y;
    assert x + y == z + Uint64Mod * q;
    var q1, r1 := z / Uint64Mod, z % Uint64Mod;
    var q2, r2 := (x + y) / Uint64Mod, (x + y) % Uint64Mod;
    assert Uint64Mod * (q1 + q - q2) == r2 - r1;
  }

  /** uint64 addition, wrapping like C's unsigned arithmetic. */
  function Add64(a: nat, b: nat): (r: nat)
    requires a < Uint64Mod && b < Uint64Mod
    ensures r < Uint64Mod
    ensures a + b < Uint64Mod ==> r == a + b
    ensures a + b >= Uint64Mod ==> r == a + b - Uint64Mod
  {
    (a + b) % Uint64Mod
  }

  function Min(a: nat, b: nat): nat { if a <= b then a else b }

  /** The date and time layouts detected from the bound strings: 0 means the
      part is absent (the low and high nibble of `date_fmt` in the source). */
  datatype DateFmt = DateFmt(date: nat, time: nat)

  /** struct arlg_conf as the core reads it once it has been validated. */
  datatype Config = Config(
    filename: Option<string>,
    filter: seq<byte>,
    startDate: Time,
    endDate: Time,
    small: nat,
    large: nat,
    align: nat,
    dateFmt: DateFmt,
    dateLen: nat,
    maxLines: nat,
    debug: bool)
}
