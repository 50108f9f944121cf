/** UTF-8 well-formedness as `std::str::from_utf8` decides it (The Unicode Standard, table 3-7). */
module Utf8 {
  import opened Prelude

  predicate IsTail(s: Bytes, i: nat) {
    i < |s| && 0x80 <= s[i] <= 0xBF
  }

  predicate Second(s: Bytes, lo: byte, hi: byte) {
    1 < |s| && lo <= s[1] <= hi
  }

  /** Length of the well-formed character at the head of `s`; 0 when there is none. */
  function CharLen(s: Bytes): (n: nat)
    requires s != []
    ensures n <= |s|
    ensures n == 0 ==> s[0] >= 0x80
    ensures s[0] < 0x80 ==> n == 1
  {
    var b := s[0];
    if b < 0x80 then 1
    else if 0xC2 <= b <= 0xDF then if Second(s, 0x80, 0xBF) then 2 else 0
    else if 0xE0 <= b <= 0xEF then
      var lo: byte := if b == 0xE0 then 0xA0 else 0x80;
      var hi: byte := if b == 0xED then 0x9F else 0xBF;
      if Second(s, lo, hi) && IsTail(s, 2) then 3 else 0
    else if 0xF0 <= b <= 0xF4 then
      var lo: byte := if b == 0xF0 then 0x90 else 0x80;
      var hi: byte := if b == 0xF4 then 0x8F else 0xBF;
      if Second(s, lo, hi) && IsTail(s, 2) && IsTail(s, 3) then 4 else 0
    else 0
  }

  /** Where the longest well-formed prefix ends; the byte there, if any, is not ASCII. */
  function ValidUpTo(s: Bytes): (n: nat)
    ensures n <= |s|
    ensures n < |s| ==> s[n] >= 0x80
    decreases |s|
  {
    if s == [] || CharLen(s) == 0 then 0 else CharLen(s) + ValidUpTo(s[CharLen(s)..])
  }

  predicate IsUtf8(s: Bytes) {
    ValidUpTo(s) == |s|
  }
}
