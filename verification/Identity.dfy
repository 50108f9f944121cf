/** Client identities (src/identity.rs): 1..=64 bytes drawn from `[A-Za-z0-9._-]`. */
module Identities {
  import opened Prelude

  const MAX_LEN: nat := 64

  predicate IsIdentityByte(b: byte) {
    || 48 <= b <= 57
    || 65 <= b <= 90
    || 97 <= b <= 122
    || b == 46 || b == 95 || b == 45
  }

  predicate IsIdentity(s: Bytes) {
    1 <= |s| <= MAX_LEN && forall i | 0 <= i < |s| :: IsIdentityByte(s[i])
  }

  type Identity = s: Bytes | IsIdentity(s) witness [97]

  datatype IdentityError =
    | BadLen(got: nat)
    | BadCharset(offset: nat, bad: byte)

  /** Offset of the first byte outside the charset, or `|s|`. */
  function FirstBad(s: Bytes): (p: nat)
    ensures p <= |s|
    ensures p < |s| ==> !IsIdentityByte(s[p])
    ensures forall i | 0 <= i < p :: IsIdentityByte(s[i])
  {
    if s == [] || !IsIdentityByte(s[0]) then 0 else 1 + FirstBad(s[1..])
  }

  /** `Identity::parse`: the length check comes first, then the earliest offending byte is
      reported. Accepts exactly the identity language and never alters what it accepts. */
  function Parse(s: Bytes): (r: Result<Identity, IdentityError>)
    ensures r.Ok? <==> IsIdentity(s)
    ensures r.Ok? ==> r.value == s
    ensures r.Err? && r.error.BadLen? <==> |s| == 0 || |s| > MAX_LEN
    ensures r.Err? && r.error.BadCharset? ==>
              && r.error.offset < |s| && r.error.bad == s[r.error.offset]
              && !IsIdentityByte(r.error.bad)
              && forall i | 0 <= i < r.error.offset :: IsIdentityByte(s[i])
  {
    if |s| == 0 || |s| > MAX_LEN then
      Err(BadLen(|s|))
    else
      var p := FirstBad(s);
      if p < |s| then Err(BadCharset(p, s[p])) else Ok(s)
  }
}
