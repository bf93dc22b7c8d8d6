/**
 proxy_send_local_response: the guest's header map is read pair by pair and each pair is set on
 the response as it is read, so that a failure in the middle leaves the pairs before it set.
 lua-nginx-module decides whether a header or a status is set; an answer of NGX_DECLINED sets
 nothing, but counts as success.
 */
module LocalResponse {
  import opened Common
  import opened HeaderMap
  import opened MapIterator
  import opened Serializers
  import opened ResponseHeaders
  import opened Callout
  import Protocol

  const NGX_MAX_INT_T := 0x7fff_ffff_ffff_ffff

  // ------------------------------------------------------------------------------------
  // ngx_atoi

  predicate AllDigits(b: Bytes) {
    forall i :: 0 <= i < |b| ==> 48 <= b[i] <= 57
  }

  function Number(b: Bytes): nat
    requires AllDigits(b)
  {
    if b == [] then 0 else
      10 * Number(b[..|b| - 1]) + b[|b| - 1] - 48
  }

  /** The number that a text of digits stands for, or nothing. */
  function Atoi(b: Bytes): Option<nat> {
    if b != [] && AllDigits(b) && Number(b) <= NGX_MAX_INT_T then Some(Number(b)) else None
  }

  /** The text of a number: its digits, without leading zeros. */
  predicate IsTextOf(b: Bytes, n: nat) {
    AllDigits(b) && Number(b) == n && b != [] && (n > 0 ==> b[0] != 48) && (n == 0 ==> |b| == 1)
  }

  lemma {:induction false} DecimalIsText(n: nat)
    ensures IsTextOf(Decimal(n), n)
  {
    if n >= 10 {
      DecimalIsText(n / 10);
      assert Decimal(n)[..|Decimal(n)| - 1] == Decimal(n / 10);
    } else {
      assert Decimal(n)[..0] == [];
    }
  }

  /** The status that a guest reads in a response is its number, can be set again, and is the same. */
  lemma StatusRoundTrip(n: nat)
    requires n <= NGX_MAX_INT_T
    ensures IsTextOf(Decimal(n), n) && Atoi(Decimal(n)) == Some(n)
  {
    DecimalIsText(n);
  }

  lemma NumberSnoc(b: Bytes, i: nat)
    requires i < |b| && AllDigits(b[..i + 1])
    ensures AllDigits(b[..i]) && Number(b[..i + 1]) == 10 * Number(b[..i]) + b[i] - 48
  {
    assert b[..i + 1] == b[..i] + [b[i]];
    assert b[..i + 1][..i] == b[..i];
  }

  /** Further digits never make a number smaller. */
  lemma {:induction false} NumberGrows(b: Bytes, i: nat)
    requires AllDigits(b) && i <= |b|
    ensures AllDigits(b[..i]) && Number(b[..i]) <= Number(b)
  {
    if i < |b| {
      var init := b[..|b| - 1];
      assert init[..i] == b[..i];
      NumberGrows(init, i);
    } else {
      assert b[..i] == b;
    }
  }

  /** ngx_atoi: refuses as soon as a character is no digit or the value would leave ngx_int_t. */
  method ParseInt(b: Bytes) returns (v: Option<nat>)
    ensures v == Atoi(b)
  {
    var cutoff, cutlim := NGX_MAX_INT_T / 10, NGX_MAX_INT_T % 10;
    if |b| == 0 {
      return None;
    }
    var value: nat := 0;
    for i := 0 to |b|
      invariant AllDigits(b[..i]) && value == Number(b[..i]) && value <= NGX_MAX_INT_T
    {
      if b[i] < 48 || b[i] > 57 {
        return None;
      }
      assert b[..i + 1] == b[..i] + [b[i]];
      NumberSnoc(b, i);
      if value >= cutoff && (value > cutoff || b[i] - 48 > cutlim) {
        if AllDigits(b) {
          NumberGrows(b, i + 1);
        }
        return None;
      }
      value := value * 10 + (b[i] - 48);
    }
    assert b[..|b|] == b;
    return Some(value);
  }

  // ------------------------------------------------------------------------------------
  // Specification

  predicate IsStatus(p: Pair) {
    Named(p.key, Ascii(":status"))
  }

  predicate IsAccepted(verdict: int) {
    verdict == NGX_OK || verdict == NGX_DECLINED
  }

  /** The pair goes through, where `verdict` is what lua-nginx-module answers if it is asked. */
  predicate GoesThrough(p: Pair, verdict: int) {
    (IsStatus(p) ==> Atoi(p.value).Some?) && IsAccepted(verdict)
  }

  /** The headers that pairs set, in order. */
  function HeadersOf(ps: seq<Pair>): seq<Pair> {
    if ps == [] then [] else HeadersOf(ps[..|ps| - 1]) + if IsStatus(ps[|ps| - 1]) then [] else [ps[|ps| - 1]]
  }

  /** The statuses they set, in order. */
  function StatusesOf(ps: seq<Pair>): seq<int> {
    if ps == [] then []
    else
      var p := ps[|ps| - 1];
      StatusesOf(ps[..|ps| - 1])
      + if IsStatus(p) && Atoi(p.value).Some? then [StatusArgument(Atoi(p.value).value)] else []
  }

  /** set_resp_status takes an int. */
  function StatusArgument(v: nat): int {
    Protocol.Signed(v % UINT32)
  }

  /** The name is compared in any case. */
  lemma StatusName(key: Bytes)
    ensures |Ascii(":status")| == 7
    ensures Named(key, Ascii(":status")) <==> Lower(key) == Ascii(":status")
  {
    LowerLiteral(":status");
    if |key| == 7 {
      SameNoCaseIsLower(key, Ascii(":status"));
    }
  }

  /** The int that is passed on is the number of the text if it is below 2^31, and else congruent to it
      modulo 2^32. */
  lemma ArgumentIsCongruent(v: nat)
    ensures var a := StatusArgument(v);
      && -0x8000_0000 <= a < 0x8000_0000 && (a - v) % 0x1_0000_0000 == 0
      && (v < 0x8000_0000 ==> a == v)
  {
    assert v == v / UINT32 * UINT32 + v % UINT32;
    Multiple(-(v / UINT32));
    Multiple(-(v / UINT32) - 1);
  }

  /** How many pairs go through before one does not. */
  function Through(ps: seq<Pair>, verdicts: nat -> int): (k: nat)
    ensures k <= |ps|
    ensures forall i :: 0 <= i < k ==> GoesThrough(ps[i], verdicts(i))
    ensures k < |ps| ==> !GoesThrough(ps[k], verdicts(k))
  {
    if ps == [] then 0
    else
      var k := Through(ps[..|ps| - 1], verdicts);
      if k < |ps| - 1 || !GoesThrough(ps[k], verdicts(k)) then k else k + 1
  }

  lemma ThroughIs(ps: seq<Pair>, verdicts: nat -> int, k: nat)
    requires k <= |ps| && forall i :: 0 <= i < k ==> GoesThrough(ps[i], verdicts(i))
    requires k < |ps| ==> !GoesThrough(ps[k], verdicts(k))
    ensures Through(ps, verdicts) == k
  {
  }

  lemma PairsSnoc(ps: seq<Pair>, p: Pair)
    ensures HeadersOf(ps + [p]) == HeadersOf(ps) + if IsStatus(p) then [] else [p]
    ensures StatusesOf(ps + [p])
         == StatusesOf(ps) + if IsStatus(p) && Atoi(p.value).Some? then [StatusArgument(Atoi(p.value).value)] else []
  {
    assert (ps + [p])[..|ps + [p]| - 1] == ps;
  }

  /** The pairs that were answered NGX_OK, and so have been set. */
  function Granted(ps: seq<Pair>, verdicts: nat -> int): seq<Pair> {
    if ps == [] then []
    else Granted(ps[..|ps| - 1], verdicts) + if verdicts(|ps| - 1) == NGX_OK then [ps[|ps| - 1]] else []
  }

  lemma GrantedNext(ps: seq<Pair>, verdicts: nat -> int, i: nat)
    requires i < |ps|
    ensures Granted(ps[..i + 1], verdicts) == Granted(ps[..i], verdicts) + if verdicts(i) == NGX_OK then [ps[i]] else []
  {
    assert ps[..i + 1][..i] == ps[..i];
  }

  lemma {:induction false} GrantedIsShort(ps: seq<Pair>, verdicts: nat -> int)
    ensures |Granted(ps, verdicts)| <= |ps|
    ensures |Granted(ps, verdicts)| == |ps| <==> forall i :: 0 <= i < |ps| ==> verdicts(i) == NGX_OK
    ensures |Granted(ps, verdicts)| == |ps| ==> Granted(ps, verdicts) == ps
    ensures forall p :: p in Granted(ps, verdicts) ==> p in ps
  {
    if ps != [] {
      GrantedIsShort(ps[..|ps| - 1], verdicts);
      assert ps == ps[..|ps| - 1] + [ps[|ps| - 1]];
    }
  }

  lemma {:induction false} HeaderOrStatus(ps: seq<Pair>)
    requires forall p :: p in ps && IsStatus(p) ==> Atoi(p.value).Some?
    ensures |HeadersOf(ps)| + |StatusesOf(ps)| == |ps|
  {
    if ps != [] {
      var init := ps[..|ps| - 1];
      assert forall p :: p in init ==> p in ps;
      HeaderOrStatus(init);
    }
  }

  /** What a result of OK promises: every pair that was answered NGX_OK has set one header or one
      status, and all pairs are set exactly when none was declined. */
  lemma OkPromises(ps: seq<Pair>, verdicts: nat -> int)
    requires Through(ps, verdicts) == |ps|
    ensures var set_ := Granted(ps, verdicts);
      && |HeadersOf(set_)| + |StatusesOf(set_)| == |set_|
      && (set_ == ps <==> forall i :: 0 <= i < |ps| ==> verdicts(i) != NGX_DECLINED)
  {
    GrantedIsShort(ps, verdicts);
    var set_ := Granted(ps, verdicts);
    forall p | p in set_ && IsStatus(p)
      ensures Atoi(p.value).Some?
    {
      var i :| 0 <= i < |ps| && ps[i] == p;
      assert GoesThrough(ps[i], verdicts(i));
    }
    HeaderOrStatus(set_);
    assert forall i :: 0 <= i < |ps| ==> GoesThrough(ps[i], verdicts(i));
  }

  // ------------------------------------------------------------------------------------
  // The response that is built

  class Reply {
    var code: nat
    var bodyLen: int
    var body: Protocol.Buffer
    /** The calls of set_resp_header and set_resp_status that were answered NGX_OK. */
    var headers: seq<Pair>
    var statuses: seq<int>

    /** ngx_http_wasm_set_resp_header, for a value that is there. */
    method SetRespHeader(p: Pair, verdict: int) returns (rc: int)
      modifies this`headers, this`statuses
      ensures rc == if GoesThrough(p, verdict) then NGX_OK else NGX_ERROR
      ensures rc == NGX_OK && verdict == NGX_OK ==>
                headers == old(headers) + HeadersOf([p]) && statuses == old(statuses) + StatusesOf([p])
      ensures rc != NGX_OK || verdict != NGX_OK ==> headers == old(headers) && statuses == old(statuses)
      ensures Lower(p.key) != Ascii(":status") ==>
                && (rc == 0 <==> verdict == 0 || verdict == -5)
                && (verdict == 0 ==> headers == old(headers) + [p] && statuses == old(statuses))
      ensures Lower(p.key) == Ascii(":status") ==>
                && (rc == 0 <==> (verdict == 0 || verdict == -5) && Atoi(p.value).Some?)
                && (verdict == 0 && Atoi(p.value).Some? ==>
                      && headers == old(headers) && |statuses| == |old(statuses)| + 1
                      && statuses[..|old(statuses)|] == old(statuses)
                      && IsInt32(statuses[|old(statuses)|])
                      && (statuses[|old(statuses)|] - Atoi(p.value).value) % 0x1_0000_0000 == 0)
    {
      PairsSnoc([], p);
      assert [] + [p] == [p];
      StatusName(p.key);
      if Atoi(p.value).Some? {
        ArgumentIsCongruent(Atoi(p.value).value);
      }
      if |p.key| == 7 && SameNoCase(p.key, Ascii(":status")) {
        var v := ParseInt(p.value);
        if v.None? {
          return NGX_ERROR;
        }
        if verdict == NGX_OK {
          statuses := statuses + [StatusArgument(v.value)];
        }
      } else if verdict == NGX_OK {
        headers := headers + [p];
      }
      return if IsAccepted(verdict) then NGX_OK else NGX_ERROR;
    }

    /** The loop over the map, in a buffer of any content. ps are the pairs it has come over. It leaves
        the buffer only if the numbers in it do not go together and no pair before that is refused. */
    method SetHeaders(map_: array<byte>, verdicts: nat -> int) returns (rc: int, inside: bool, ghost ps: seq<Pair>)
      requires 4 <= map_.Length <= UINT32
      modifies this`headers, this`statuses
      ensures Walked(map_[..], ps)
      ensures !inside ==> !MapFits(map_[..]) && Through(ps, verdicts) == |ps|
      ensures inside && rc == PROXY_RESULT_OK ==> Holds(map_[..], ps) && Through(ps, verdicts) == |ps|
      ensures inside && rc != PROXY_RESULT_OK ==> rc == PROXY_RESULT_BAD_ARGUMENT && Through(ps, verdicts) == |ps| - 1
      ensures headers == old(headers) + HeadersOf(Granted(ps[..Through(ps, verdicts)], verdicts))
      ensures statuses == old(statuses) + StatusesOf(Granted(ps[..Through(ps, verdicts)], verdicts))
    {
      hide Holds, HeadersOf, StatusesOf, GoesThrough, Through, Granted, Walked, MapFits, Int32At, Data;
      ghost var b := map_[..];
      var it := new Iter(map_);
      NothingWalked(b);
      var i: nat := 0;
      ps := [];
      EmptyPairs(ps, verdicts);
      while true
        invariant it.buf == map_ && fresh(it) && it.Walking(ps) && map_[..] == b && i == |ps|
        invariant forall j :: 0 <= j < i ==> GoesThrough(ps[j], verdicts(j))
        invariant headers == old(headers) + HeadersOf(Granted(ps, verdicts))
        invariant statuses == old(statuses) + StatusesOf(Granted(ps, verdicts))
        decreases map_.Length - 8 * i
      {
        var r;
        inside, r := it.Step(ps);
        if r.None? {
          ThroughIs(ps, verdicts, i);
          assert ps[..i] == ps;
          rc := PROXY_RESULT_OK;
          return;
        }
        ghost var more := ps + [r.value];
        assert more[..i + 1] == more && more[..i] == ps;
        GrantedNext(more, verdicts, i);
        PairsConcat(Granted(ps, verdicts), r.value);
        assert verdicts(i) != NGX_OK ==> Granted(more, verdicts) == Granted(ps, verdicts);
        var one := SetRespHeader(r.value, verdicts(i));
        ps := more;
        if one != NGX_OK {
          ThroughIs(ps, verdicts, i);
          rc := PROXY_RESULT_BAD_ARGUMENT;
          return;
        }
        i := i + 1;
      }
    }

    /** proxy_send_local_response. `map_` is the guest memory from the header map on, if that is in
        bounds; `memory` the guest memory from the body on; `room` says whether the pool of the
        request r has memory. */
    method SendLocalResponse(r: Protocol.ReqId, resCode: int, map_: array?<byte>, headersSize: int,
                             verdicts: nat -> int, memory: Bytes, bodySize: int, room: bool)
      returns (rc: int, inside: bool, ghost ps: seq<Pair>)
      requires map_ != null ==> map_.Length <= UINT32
      modifies this
      ensures !inside ==> headersSize > 0 && map_ != null && !MapFits(map_[..]) && Through(ps, verdicts) == |ps|
      ensures inside ==> rc == if headersSize > 0 && map_ == null then PROXY_RESULT_INVALID_MEMORY_ACCESS
                               else if headersSize > 0 && Through(ps, verdicts) < |ps| then PROXY_RESULT_BAD_ARGUMENT
                               else if bodySize > |memory| then PROXY_RESULT_INVALID_MEMORY_ACCESS
                               else if bodySize > 0 && !room then PROXY_RESULT_INTERNAL_FAILURE
                               else PROXY_RESULT_OK
      ensures inside && headersSize > 0 && map_ != null ==>
                && Walked(map_[..], ps)
                && if Through(ps, verdicts) == |ps| then Holds(map_[..], ps) else Through(ps, verdicts) == |ps| - 1
      ensures var done :=
                if headersSize > 0 && map_ != null then Granted(ps[..Through(ps, verdicts)], verdicts) else [];
        headers == old(headers) + HeadersOf(done) && statuses == old(statuses) + StatusesOf(done)
      ensures inside ==>
        var c := Protocol.LocalResponse(resCode, bodySize, memory,
                   headersSize <= 0 || (map_ != null && Through(ps, verdicts) == |ps|), room);
        var s := Protocol.SendLocal(Protocol.Start.(code := old(code), bodyLen := old(bodyLen), body := old(body)),
                                    r, c);
        code == s.code && bodyLen == s.bodyLen && body == s.body
    {
      hide Holds, HeadersOf, StatusesOf, Granted, Walked;
      code := resCode % UINT32;
      bodyLen := bodySize;
      rc, inside, ps := PROXY_RESULT_OK, true, [];
      EmptyPairs(ps, verdicts);
      if headersSize > 0 {
        if map_ == null {
          rc := PROXY_RESULT_INVALID_MEMORY_ACCESS;
          return;
        }
        if map_.Length < 4 {
          inside := false;
          return;
        }
        rc, inside, ps := SetHeaders(map_, verdicts);
        if !inside || rc != PROXY_RESULT_OK {
          return;
        }
      }
      if bodySize > 0 {
        if bodySize > |memory| {
          rc := PROXY_RESULT_INVALID_MEMORY_ACCESS;
          return;
        }
        body := Protocol.Null;
        if !room {
          rc := PROXY_RESULT_INTERNAL_FAILURE;
          return;
        }
        body := Protocol.Held(r, memory[..bodySize]);
      }
    }
  }

  /** In a buffer that holds a list, what the loop has come over is the list up to the first pair that
      is refused. */
  lemma SeenOfHeld(b: Bytes, ps: seq<Pair>, qs: seq<Pair>, verdicts: nat -> int)
    requires Walked(b, ps) && Holds(b, qs)
    requires if Through(ps, verdicts) == |ps| then Holds(b, ps) else Through(ps, verdicts) == |ps| - 1
    ensures Through(qs, verdicts) == Through(ps, verdicts) && ps[..Through(ps, verdicts)] == qs[..Through(qs, verdicts)]
    ensures Through(ps, verdicts) == |ps| <==> Through(qs, verdicts) == |qs|
  {
    hide Holds, Walked, Data, Int32At;
    var k := Through(ps, verdicts);
    WalkedPrefix(b, ps, qs, |ps|);
    assert ps == qs[..|ps|];
    if k == |ps| {
      HoldsUnique(b, ps, qs);
    } else {
      assert ps[k] == qs[k];
      ThroughIs(qs, verdicts, k);
    }
  }

  lemma EmptyPairs(ps: seq<Pair>, verdicts: nat -> int)
    ensures ps[..0] == [] && HeadersOf([]) == [] && StatusesOf([]) == [] && Granted([], verdicts) == []
  {
  }

  lemma PairsConcat(ps: seq<Pair>, p: Pair)
    ensures HeadersOf(ps + [p]) == HeadersOf(ps) + HeadersOf([p])
    ensures StatusesOf(ps + [p]) == StatusesOf(ps) + StatusesOf([p])
  {
    PairsSnoc(ps, p);
    PairsSnoc([], p);
    assert [] + [p] == [p];
  }
}
