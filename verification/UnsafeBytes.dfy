/** The two scans that guard what a guest may put into the request line. */
module UnsafeBytes {
  import opened Common

  /** %00-%08, %0A-%1F and %7F. */
  predicate IsUnsafeInUri(c: byte) {
    (c < 32 && c != 9) || c == 127
  }

  predicate IsLetter(c: byte) {
    65 <= c <= 90 || 97 <= c <= 122
  }

  const UNSAFE: seq<bv32> := [0xffff_fdff, 0, 0, 0x8000_0000, 0, 0, 0, 0]

  /** unsafe[c >> 5] & (1 << (c & 0x1f)). */
  function Bit(c: bv8): bool {
    UNSAFE[(c >> 5) as int] & ((1 as bv32) << ((c & 0x1f) as bv6)) != 0
  }

  /** The bit table says what its comment says. */
  lemma BitIsUnsafe(c: byte)
    ensures Bit(c as bv8) <==> IsUnsafeInUri(c)
  {
    var b := c as bv8;
    if b >> 5 == 0 {
      LowWord(b);
    } else if b >> 5 == 3 {
      HighWord(b);
    }
  }

  lemma LowWord(b: bv8)
    requires b >> 5 == 0
    ensures Bit(b) <==> b != 9
    ensures b < 32
  {
  }

  lemma HighWord(b: bv8)
    requires b >> 5 == 3
    ensures Bit(b) <==> b == 127
    ensures 96 <= b < 128
  {
  }

  /** The first byte that satisfies p, and NGX_ERROR, or NGX_OK if there is none. */
  ghost predicate FirstOf(str: Bytes, p: byte -> bool, rc: int, c: byte) {
    if rc == NGX_OK then forall k :: 0 <= k < |str| ==> !p(str[k])
    else
      rc == NGX_ERROR
      && exists i :: 0 <= i < |str| && p(str[i]) && str[i] == c && forall k :: 0 <= k < i ==> !p(str[k])
  }

  /** ngx_http_wasm_check_unsafe_uri_bytes. */
  method CheckUnsafeUriBytes(str: Bytes) returns (rc: int, c: byte)
    ensures FirstOf(str, (b: byte) => IsUnsafeInUri(b), rc, c)
  {
    for i := 0 to |str|
      invariant forall k :: 0 <= k < i ==> !IsUnsafeInUri(str[k])
    {
      BitIsUnsafe(str[i]);
      if Bit(str[i] as bv8) {
        return NGX_ERROR, str[i];
      }
    }
    return NGX_OK, 0;
  }

  /** ngx_http_wasm_check_unsafe_method. */
  method CheckUnsafeMethod(str: Bytes) returns (rc: int, c: byte)
    ensures FirstOf(str, (b: byte) => !IsLetter(b), rc, c)
  {
    for i := 0 to |str|
      invariant forall k :: 0 <= k < i ==> IsLetter(str[k])
    {
      c := str[i];
      if !((65 <= c && c <= 90) || (97 <= c && c <= 122)) {
        return NGX_ERROR, c;
      }
    }
    return NGX_OK, 0;
  }
}
