/** Types shared by every component: bytes, optional values and results. */
module Prelude {

  type byte = b: int | 0 <= b < 256

  type Bytes = seq<byte>

  datatype Option<+T> = None | Some(value: T)

  datatype Result<+T, +E> = Ok(value: T) | Err(error: E)

  const LF: byte := 10
  const CR: byte := 13
  const NUL: byte := 0

  /** Position of the first `sep` in `s`, or `|s|` when there is none. */
  function IndexOf(s: Bytes, sep: byte): (p: nat)
    ensures p <= |s|
    ensures p < |s| ==> s[p] == sep
    ensures forall i | 0 <= i < p :: s[i] != sep
  {
    if s == [] || s[0] == sep then 0 else 1 + IndexOf(s[1..], sep)
  }

  lemma IndexOfUnique(s: Bytes, sep: byte, p: nat)
    requires p <= |s|
    requires p < |s| ==> s[p] == sep
    requires forall i | 0 <= i < p :: s[i] != sep
    ensures IndexOf(s, sep) == p
  {}

  lemma Regrouped<T>(a: seq<T>, b: seq<T>, c: seq<T>)
    ensures a + (b + c) == a + b + c
  {}
}
