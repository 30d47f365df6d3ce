/** Line boundaries in a span of log text. */
module Lines {
  import opened Types

  /** ffstr_findchar: the index of the first `c` in `s`, or -1. */
  function FindChar(s: seq<byte>, c: byte): (r: int)
    ensures -1 <= r < |s|
    ensures r >= 0 ==> s[r] == c && forall j :: 0 <= j < r ==> s[j] != c
    ensures r < 0 <==> forall j :: 0 <= j < |s| ==> s[j] != c
    decreases |s|
  {
    if s == [] then -1
    else if s[0] == c then 0
    else
      var k := FindChar(s[1..], c);
      if k < 0 then -1 else k + 1
  }

  /** newline_find: the length of the first line of `s` including its
      newline, or -1 when `s` holds no complete line. */
  function NewlineFind(s: seq<byte>): (r: int)
    ensures r == -1 <==> forall j :: 0 <= j < |s| ==> s[j] != NewLine
    ensures r != -1 ==> 1 <= r <= |s| && s[r - 1] == NewLine
    ensures r != -1 ==> forall j :: 0 <= j < r - 1 ==> s[j] != NewLine
  {
    var k := FindChar(s, NewLine);
    if k < 0 then -1 else k + 1
  }
}
