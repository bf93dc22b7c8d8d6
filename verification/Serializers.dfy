/**
 The three host functions that hand a header map to the guest. Each adds up a size in one
 pass, asks the guest for a block of exactly that size, and fills the block in a second pass.
 The block arrives with whatever bytes the guest left in it.
 */
module Serializers {
  import opened Common
  import opened HeaderMap
  import opened MapIterator

  const FFI_BAD_CONTEXT := -101
  const NGX_HTTP_SWITCHING_PROTOCOLS := 101

  function Ascii(s: string): (b: Bytes)
    ensures |b| == |s|
  {
    seq(|s|, i requires 0 <= i < |s| => s[i] as int % 256)
  }

  // ------------------------------------------------------------------------------------
  // Sizes

  /** What one pair adds to a size: its bytes and two terminators. */
  lemma DataSnoc(ps: seq<Pair>, p: Pair)
    ensures |Data(ps + [p])| == |Data(ps)| + |p.key| + |p.value| + 2
  {
    SnocParts(ps, p);
  }

  lemma {:induction false} DataConcat(ps: seq<Pair>, qs: seq<Pair>)
    ensures |Data(ps + qs)| == |Data(ps)| + |Data(qs)|
  {
    if qs == [] {
      assert ps + qs == ps;
    } else {
      var init := qs[..|qs| - 1];
      assert ps + qs == (ps + init) + [qs[|qs| - 1]];
      assert qs == init + [qs[|qs| - 1]];
      DataConcat(ps, init);
      DataSnoc(ps + init, qs[|qs| - 1]);
      DataSnoc(init, qs[|qs| - 1]);
    }
  }

  /** The first loop of a serializer over a plain list. */
  method SumSizes(ps: seq<Pair>) returns (size: nat)
    ensures size == |Data(ps)|
  {
    size := 0;
    var i := 0;
    while i < |ps|
      invariant i <= |ps| && size == |Data(ps[..i])|
    {
      assert ps[..i + 1] == ps[..i] + [ps[i]];
      DataSnoc(ps[..i], ps[i]);
      size := size + |ps[i].key| + |ps[i].value| + 2;
      i := i + 1;
    }
    assert ps[..i] == ps;
  }

  /** The second loop of a serializer over a plain list: ps are appended to what is written. */
  method FillPairs(it: Iter, ps: seq<Pair>, ghost init: Bytes, ghost n: nat, ghost done: seq<Pair>)
    requires it.Writing(init, n, done) && |done| + |ps| <= n && SizesFit(ps)
    requires 4 + 8 * n + |Data(done + ps)| <= |init|
    modifies it, it.buf
    ensures it.Writing(init, n, done + ps)
  {
    hide Layout, Data, SizesFit;
    var i := 0;
    assert done + ps[..0] == done;
    while i < |ps|
      invariant i <= |ps| && it.Writing(init, n, done + ps[..i])
    {
      AppendFits(done, ps, i);
      var ok := it.Put(ps[i], init, n, done + ps[..i]);
      i := i + 1;
    }
    assert ps[..i] == ps;
  }

  lemma AppendFits(done: seq<Pair>, ps: seq<Pair>, i: nat)
    requires i < |ps|
    ensures done + ps[..i + 1] == done + ps[..i] + [ps[i]]
    ensures |Data(done + ps[..i])| + |PairBytes(ps[i])| <= |Data(done + ps)|
    ensures SizesFit(ps) ==> PairFits(ps[i])
  {
    var all := done + ps;
    assert all[..|done| + i] == done + ps[..i] && all[|done| + i] == ps[i];
    DataNextFits(all, |done| + i);
  }

  /** A cursor at the start of an empty map. */
  lemma StartWriting(it: Iter, init: Bytes, n: nat)
    requires IsInt32(2 * n) && 4 + 8 * n <= |init| && it.buf[..] == Patch(init, 0, Le32(n))
    requires it.idx == 0 && it.len == Int32At(it.buf[..], 0) && it.sizePtr == 4
      && it.dataPtr == 4 + 4 * Wrap32(2 * it.len)
    ensures it.Writing(init, n, [])
  {
    EmptyLayout(init, n);
    Le32RoundTrip(n);
  }

  // ------------------------------------------------------------------------------------
  // Request headers

  datatype RequestLine = RequestLine(https: bool, path: Bytes, method_: Bytes, authority: Bytes)

  /** The pseudo headers, in the order of the static table. */
  function RequestPseudo(r: RequestLine): seq<Pair> {
    [Pair(Ascii(":scheme"), if r.https then Ascii("https") else Ascii("http")),
     Pair(Ascii(":path"), r.path),
     Pair(Ascii(":method"), r.method_),
     Pair(Ascii(":authority"), r.authority)]
  }

  /** ngx_http_wasm_req_get_headers. `count` and `headers` are what lua-nginx-module answers:
      the number of headers or an error, and the list or an error. `granted` says whether the
      guest hands out the block. */
  method RequestHeaders(count: int, bufOk: bool, headers: Option<seq<Pair>>, r: RequestLine, granted: bool)
    returns (rc: int, buf: array?<byte>)
    requires count == FFI_BAD_CONTEXT || 0 <= count
    requires headers.Some? ==> |headers.value| == count
    requires headers.Some? ==> Fits(headers.value + RequestPseudo(r))
    requires count == 0 ==> headers.Some?
    ensures rc == if count == FFI_BAD_CONTEXT then PROXY_RESULT_BAD_ARGUMENT
                  else if count > 0 && (!bufOk || headers.None?) then PROXY_RESULT_INTERNAL_FAILURE
                  else if !granted then PROXY_RESULT_INVALID_MEMORY_ACCESS
                  else PROXY_RESULT_OK
    ensures count == -101 <==> rc == 2
    ensures rc == PROXY_RESULT_OK ==>
              headers.Some? &&
              var all := headers.value
                         + [Pair(Ascii(":scheme"), if r.https then Ascii("https") else Ascii("http")),
                            Pair(Ascii(":path"), r.path),
                            Pair(Ascii(":method"), r.method_),
                            Pair(Ascii(":authority"), r.authority)];
              buf != null && Fits(all) && buf[..] == Encode(all)
  {
    hide Layout, Encode, Data, Ascii;
    if count == FFI_BAD_CONTEXT {
      return PROXY_RESULT_BAD_ARGUMENT, null;
    }
    if count > 0 && (!bufOk || headers.None?) {
      return PROXY_RESULT_INTERNAL_FAILURE, null;
    }
    var pseudo := RequestPseudo(r);
    ghost var all := headers.value + pseudo;
    var size := SumSizes(headers.value);
    var pseudoSize := SumSizes(pseudo);
    DataConcat(headers.value, pseudo);
    size := size + pseudoSize;
    size := size + 4 + (count + |pseudo|) * 2 * 4;
    if !granted {
      return PROXY_RESULT_INVALID_MEMORY_ACCESS, null;
    }
    buf := new byte[size];
    ghost var init := buf[..];
    FitsSizes(all);
    InitMap(buf, count + |pseudo|);
    var it := new Iter(buf);
    StartWriting(it, init, |all|);
    SizesOfParts(headers.value, pseudo);
    assert [] + headers.value == headers.value;
    FillPairs(it, headers.value, init, |all|, []);
    FillPairs(it, pseudo, init, |all|, headers.value);
    LayoutComplete(init, all);
    assert init[EncodedSize(all)..] == [];
    rc := PROXY_RESULT_OK;
  }

  /** The guest that reads the block finds the headers, and after them the four pseudo headers with the
      fields of the request. */
  method RequestHeadersReachGuest(headers: seq<Pair>, r: RequestLine, bufOk: bool, granted: bool)
    returns (seen: Option<seq<Pair>>)
    requires Fits(headers + RequestPseudo(r))
    ensures seen.Some? <==> (headers == [] || bufOk) && granted
    ensures seen.Some? ==>
              var n := |headers|;
              && |seen.value| == n + 4 && seen.value[..n] == headers
              && seen.value[n].key == Ascii(":scheme")
              && seen.value[n].value == (if r.https then Ascii("https") else Ascii("http"))
              && seen.value[n + 1] == Pair(Ascii(":path"), r.path)
              && seen.value[n + 2] == Pair(Ascii(":method"), r.method_)
              && seen.value[n + 3] == Pair(Ascii(":authority"), r.authority)
  {
    hide Encode, Ascii, Holds, RequestPseudo;
    var rc, buf := RequestHeaders(|headers|, bufOk, Some(headers), r, granted);
    if rc != PROXY_RESULT_OK {
      return None;
    }
    ghost var all := headers
                     + [Pair(Ascii(":scheme"), if r.https then Ascii("https") else Ascii("http")),
                        Pair(Ascii(":path"), r.path),
                        Pair(Ascii(":method"), r.method_),
                        Pair(Ascii(":authority"), r.authority)];
    EncodedHolds(all, []);
    assert buf[..] == Encode(all) + [];
    var out := ReadMap(buf, all);
    return Some(out);
  }

  lemma SizesOfParts(ps: seq<Pair>, qs: seq<Pair>)
    requires SizesFit(ps + qs)
    ensures SizesFit(ps) && SizesFit(qs)
  {
    assert forall p :: p in ps ==> p in ps + qs;
    assert forall p :: p in qs ==> p in ps + qs;
  }

  // ------------------------------------------------------------------------------------
  // Headers of a callout's response

  /** ngx_http_wasm_http_call_resp_get_headers. */
  method CallResponseHeaders(hdr: seq<Pair>, granted: bool) returns (rc: int, buf: array?<byte>)
    requires Fits(hdr)
    ensures rc == if hdr == [] then PROXY_RESULT_NOT_FOUND
                  else if !granted then PROXY_RESULT_INVALID_MEMORY_ACCESS
                  else PROXY_RESULT_OK
    ensures rc == PROXY_RESULT_OK ==> buf != null && buf[..] == Encode(hdr)
  {
    hide Layout, Encode, Data;
    if |hdr| == 0 {
      return PROXY_RESULT_NOT_FOUND, null;
    }
    var size := SumSizes(hdr);
    size := size + 4 + |hdr| * 2 * 4;
    if !granted {
      return PROXY_RESULT_INVALID_MEMORY_ACCESS, null;
    }
    buf := new byte[size];
    ghost var init := buf[..];
    FitsSizes(hdr);
    InitMap(buf, |hdr|);
    var it := new Iter(buf);
    StartWriting(it, init, |hdr|);
    assert [] + hdr == hdr;
    FillPairs(it, hdr, init, |hdr|, []);
    LayoutComplete(init, hdr);
    assert init[EncodedSize(hdr)..] == [];
    rc := PROXY_RESULT_OK;
  }
}
