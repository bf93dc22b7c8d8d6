/**
 ngx_http_wasm_resp_get_headers. The response headers are a chunked list. The size pass walks
 all of its parts; the fill pass goes on from where the size pass stopped, which is the last
 part, so headers in earlier parts are counted and given room but never written.
 */
module ResponseHeaders {
  import opened Common
  import opened HeaderMap
  import opened MapIterator
  import opened Serializers

  /** ngx_table_elt_t; an element whose hash is 0 is deleted. */
  datatype Element = Element(hash: nat, pair: Pair)

  datatype Response = Response(parts: seq<seq<Element>>, contentType: Bytes,
                               hasContentLengthHeader: bool, contentLength: int,
                               status: nat, keepalive: bool, chunked: bool)

  /** nginx allocates a further part only to push an element into it. */
  predicate ListShape(parts: seq<seq<Element>>) {
    parts != [] && forall k :: 0 < k < |parts| ==> parts[k] != []
  }

  function LowByte(c: byte): byte {
    if 65 <= c <= 90 then c + 32 else c
  }

  /** ngx_strlow. */
  function Lower(b: Bytes): (r: Bytes)
    ensures |r| == |b|
  {
    seq(|b|, i requires 0 <= i < |b| => LowByte(b[i]))
  }

  /** Capitals become small letters, and no other byte changes. */
  lemma LowerIsSmall(b: Bytes)
    ensures forall i :: 0 <= i < |b| ==> if 65 <= b[i] <= 90 then Lower(b)[i] == b[i] + 32 else Lower(b)[i] == b[i]
  {
  }

  /** A name of colons and small letters. */
  lemma LowerLiteral(s: string)
    requires forall i :: 0 <= i < |s| ==> s[i] == ':' || 'a' <= s[i] <= 'z'
    ensures 0 !in Ascii(s) && Lower(Ascii(s)) == Ascii(s)
  {
  }

  /** The live elements of a part, as the guest is to see them. */
  function Live(part: seq<Element>): seq<Pair> {
    if part == [] then []
    else
      var last := part[|part| - 1];
      Live(part[..|part| - 1]) + if last.hash == 0 then [] else [Pair(Lower(last.pair.key), last.pair.value)]
  }

  function Flatten(parts: seq<seq<Element>>): seq<Element> {
    if parts == [] then [] else Flatten(parts[..|parts| - 1]) + parts[|parts| - 1]
  }

  /** "%O" and "%ui" of ngx_snprintf. */
  function Decimal(n: nat): (r: Bytes)
    ensures r != []
  {
    if n < 10 then [48 + n] else Decimal(n / 10) + [48 + n % 10]
  }

  function Connection(r: Response): Bytes {
    if r.status == NGX_HTTP_SWITCHING_PROTOCOLS then Ascii("upgrade")
    else if r.keepalive then Ascii("keep-alive")
    else Ascii("close")
  }

  function Opt(c: bool, p: Pair): seq<Pair> {
    if c then [p] else []
  }

  function ContentLength(r: Response): Pair {
    Pair(Ascii("content-length"), if r.contentLength >= 0 then Decimal(r.contentLength) else [])
  }

  /** The headers nginx adds while it sends the response. */
  function Added(r: Response): seq<Pair> {
    Opt(r.contentType != [], Pair(Ascii("content-type"), r.contentType))
    + (Opt(!r.hasContentLengthHeader && r.contentLength >= 0, ContentLength(r))
    + (Opt(true, Pair(Ascii("connection"), Connection(r)))
    + (Opt(r.chunked, Pair(Ascii("transfer-encoding"), Ascii("chunked")))
    + (Opt(r.status != 0, Pair(Ascii(":status"), Decimal(r.status))) + []))))
  }

  /** What the guest is meant to get. */
  function Intended(r: Response): seq<Pair> {
    Live(Flatten(r.parts)) + Added(r)
  }

  /** What is written. */
  function Produced(r: Response): seq<Pair>
    requires r.parts != []
  {
    Live(r.parts[|r.parts| - 1]) + Added(r)
  }

  /** The live headers the fill pass skips. */
  function Skipped(r: Response): seq<Pair>
    requires r.parts != []
  {
    Live(Flatten(r.parts[..|r.parts| - 1]))
  }

  lemma {:induction false} LiveConcat(a: seq<Element>, b: seq<Element>)
    ensures Live(a + b) == Live(a) + Live(b)
  {
    if b == [] {
      assert a + b == a;
    } else {
      assert (a + b)[..|a + b| - 1] == a + b[..|b| - 1];
      LiveConcat(a, b[..|b| - 1]);
    }
  }

  lemma IntendedParts(r: Response)
    requires r.parts != []
    ensures Intended(r) == Skipped(r) + Produced(r)
  {
    hide Added, Live;
    LiveConcat(Flatten(r.parts[..|r.parts| - 1]), r.parts[|r.parts| - 1]);
  }

  lemma LiveSnoc(a: seq<Element>, e: Element)
    ensures Live(a + [e]) == if e.hash == 0 then Live(a) else Live(a) + [Pair(Lower(e.pair.key), e.pair.value)]
  {
    assert (a + [e])[..|a + [e]| - 1] == a;
  }

  /** The elements before position i of part k. */
  function Before(parts: seq<seq<Element>>, k: nat, i: nat): seq<Element>
    requires k < |parts| && i <= |parts[k]|
  {
    Flatten(parts[..k]) + parts[k][..i]
  }

  lemma BeforeNextPart(parts: seq<seq<Element>>, k: nat)
    requires k < |parts|
    ensures Before(parts, k, |parts[k]|) == Flatten(parts[..k + 1])
    ensures k + 1 < |parts| ==> Before(parts, k + 1, 0) == Before(parts, k, |parts[k]|)
  {
    assert parts[..k + 1][..k] == parts[..k];
    assert parts[k][..|parts[k]|] == parts[k];
    if k + 1 < |parts| {
      assert parts[k + 1][..0] == [];
    }
  }

  lemma BeforeNext(parts: seq<seq<Element>>, k: nat, i: nat)
    requires k < |parts| && i < |parts[k]|
    ensures Before(parts, k, i + 1) == Before(parts, k, i) + [parts[k][i]]
  {
    assert parts[k][..i + 1] == parts[k][..i] + [parts[k][i]];
  }

  /** The size pass over the list. It returns the part its cursor ends on. */
  method MeasureList(parts: seq<seq<Element>>) returns (count: nat, size: nat, part: nat)
    requires ListShape(parts)
    ensures count == |Live(Flatten(parts))| && size == |Data(Live(Flatten(parts)))| && part == |parts| - 1
  {
    hide Live, Data;
    count, size, part := 0, 0, 0;
    var i := 0;
    EmptyIsEmpty();
    assert Before(parts, 0, 0) == [];
    while true
      invariant part < |parts| && i <= |parts[part]|
      invariant count == |Live(Before(parts, part, i))| && size == |Data(Live(Before(parts, part, i)))|
      decreases |parts| - part, |parts[part]| - i
    {
      if i >= |parts[part]| {
        BeforeNextPart(parts, part);
        if part == |parts| - 1 {
          assert parts[..|parts|] == parts;
          break;
        }
        part := part + 1;
        i := 0;
      }
      var e := parts[part][i];
      BeforeNext(parts, part, i);
      LiveSnoc(Before(parts, part, i), e);
      if e.hash != 0 {
        DataSnoc(Live(Before(parts, part, i)), Pair(Lower(e.pair.key), e.pair.value));
        count := count + 1;
        size := size + |e.pair.key| + |e.pair.value| + 2;
      }
      i := i + 1;
    }
  }

  lemma {:induction false} FlattenPrefix(parts: seq<seq<Element>>, k: nat)
    requires k <= |parts|
    ensures Flatten(parts[..k]) <= Flatten(parts)
  {
    if k == |parts| {
      assert parts[..k] == parts;
    } else {
      FlattenPrefix(parts[..|parts| - 1], k);
      assert parts[..|parts| - 1][..k] == parts[..k];
    }
  }

  lemma BeforePrefix(parts: seq<seq<Element>>, k: nat, i: nat)
    requires k < |parts| && i <= |parts[k]|
    ensures Before(parts, k, i) <= Flatten(parts)
  {
    FlattenPrefix(parts, k + 1);
    BeforeNextPart(parts, k);
    assert Before(parts, k, i) <= Before(parts, k, |parts[k]|);
  }

  lemma LivePrefix(a: seq<Element>, b: seq<Element>)
    requires a <= b
    ensures Live(a) <= Live(b)
  {
    assert b == a + b[|a|..];
    LiveConcat(a, b[|a|..]);
  }

  lemma DataPrefix(ps: seq<Pair>, p: Pair, qs: seq<Pair>)
    requires ps + [p] <= qs
    ensures |Data(ps)| + |PairBytes(p)| <= |Data(qs)| && |ps| < |qs|
    ensures SizesFit(qs) ==> PairFits(p)
  {
    assert qs[..|ps|] == ps && qs[|ps|] == p;
    DataNextFits(qs, |ps|);
  }

  lemma EmptyIsEmpty()
    ensures Live([]) == [] && Data([]) == []
  {
  }

  lemma NoneBefore(parts: seq<seq<Element>>)
    requires parts != []
    ensures Before(parts, 0, 0) == []
  {
  }

  /** There is room for the next live element: it is one of those that were counted. */
  lemma ElementFits(parts: seq<seq<Element>>, part: nat, i: nat, p: Pair)
    requires part < |parts| && i < |parts[part]|
    requires Live(Before(parts, part, i + 1)) == Live(Before(parts, part, i)) + [p]
    ensures var done, all := Live(Before(parts, part, i)), Live(Flatten(parts));
      |Data(done)| + |PairBytes(p)| <= |Data(all)| && |done| < |all| && (SizesFit(all) ==> PairFits(p))
  {
    hide Data, PairBytes, SizesFit, PairFits, Live, Flatten;
    BeforePrefix(parts, part, i + 1);
    LivePrefix(Before(parts, part, i + 1), Flatten(parts));
    DataPrefix(Live(Before(parts, part, i)), p, Live(Flatten(parts)));
  }

  /** The fill pass over the list, from the part its cursor points to. */
  method FillList(it: Iter, parts: seq<seq<Element>>, ghost init: Bytes, ghost n: nat)
    requires ListShape(parts) && it.Writing(init, n, [])
    requires var ps := Live(Flatten(parts)); |ps| <= n && SizesFit(ps) && 4 + 8 * n + |Data(ps)| <= |init|
    modifies it, it.buf
    ensures it.Writing(init, n, Live(Flatten(parts)))
  {
    hide Layout, Data, SizesFit, PairFits, PairBytes, Live, Lower, Flatten;
    EmptyIsEmpty();
    NoneBefore(parts);
    var part, i := 0, 0;
    while true
      invariant part < |parts| && i <= |parts[part]|
      invariant it.Writing(init, n, Live(Before(parts, part, i)))
      decreases |parts| - part, |parts[part]| - i
    {
      if i >= |parts[part]| {
        BeforeNextPart(parts, part);
        if part == |parts| - 1 {
          assert parts[..|parts|] == parts;
          break;
        }
        part := part + 1;
        i := 0;
      }
      var e := parts[part][i];
      ghost var done := Live(Before(parts, part, i));
      BeforeNext(parts, part, i);
      LiveSnoc(Before(parts, part, i), e);
      if e.hash != 0 {
        var p := Pair(Lower(e.pair.key), e.pair.value);
        ElementFits(parts, part, i, p);
        var ok := it.Put(p, init, n, done);
      }
      i := i + 1;
    }
  }

  /** The added headers in the size pass. sizeof a string literal counts its terminator: 13 for
      "content-type", 15 for "content-length", 18 for "transfer-encoding" and so on. The name of
      the connection header is taken for "content-length", which is 4 bytes longer. */
  method AddedSize(r: Response) returns (count: nat, size: nat)
    ensures count == |Added(r)| && size == |Data(Added(r))| + 4
  {
    hide Data, Decimal;
    AddedData(r);
    count, size := 0, 0;
    if |r.contentType| != 0 {
      count, size := count + 1, size + 13 + |r.contentType| + 1;
    }
    if !r.hasContentLengthHeader && r.contentLength >= 0 {
      count, size := count + 1, size + 15 + |Decimal(r.contentLength)| + 1;
    }
    count, size := count + 1, size + 15;
    if r.status == NGX_HTTP_SWITCHING_PROTOCOLS {
      size := size + 8;
    } else if r.keepalive {
      size := size + 11;
    } else {
      size := size + 6;
    }
    if r.chunked {
      count, size := count + 1, size + 18 + 8;
    }
    if r.status != 0 {
      count, size := count + 1, size + 8 + |Decimal(r.status)| + 1;
    }
  }

  lemma {:induction false} SumOfOne(p: Pair)
    ensures |Data([p])| == |p.key| + |p.value| + 2
  {
    DataSnoc([], p);
    assert [] + [p] == [p];
  }

  lemma OptData(c: bool, p: Pair, rest: seq<Pair>)
    ensures |Data(Opt(c, p) + rest)| == (if c then |p.key| + |p.value| + 2 else 0) + |Data(rest)|
    ensures |Opt(c, p) + rest| == (if c then 1 else 0) + |rest|
  {
    DataConcat(Opt(c, p), rest);
    NoData();
    SumOfOne(p);
  }

  /** The bytes of the added headers, one by one. */
  lemma AddedData(r: Response)
    ensures |Data(Added(r))|
         == (if r.contentType != [] then 12 + |r.contentType| + 2 else 0)
            + (if !r.hasContentLengthHeader && r.contentLength >= 0 then 14 + |Decimal(r.contentLength)| + 2 else 0)
            + (10 + |Connection(r)| + 2)
            + (if r.chunked then 17 + 7 + 2 else 0)
            + (if r.status != 0 then 7 + |Decimal(r.status)| + 2 else 0)
    ensures |Added(r)|
         == (if r.contentType != [] then 1 else 0)
            + (if !r.hasContentLengthHeader && r.contentLength >= 0 then 1 else 0)
            + 1 + (if r.chunked then 1 else 0) + (if r.status != 0 then 1 else 0)
  {
    hide Data, Decimal, Opt, Connection;
    NoData();
    var e := Pair(Ascii(":status"), Decimal(r.status));
    var d := Pair(Ascii("transfer-encoding"), Ascii("chunked"));
    var c := Pair(Ascii("connection"), Connection(r));
    var b := ContentLength(r);
    OptData(r.status != 0, e, []);
    var l1 := Opt(r.status != 0, e) + [];
    OptData(r.chunked, d, l1);
    var l2 := Opt(r.chunked, d) + l1;
    OptData(true, c, l2);
    var l3 := Opt(true, c) + l2;
    OptData(!r.hasContentLengthHeader && r.contentLength >= 0, b, l3);
    var l4 := Opt(!r.hasContentLengthHeader && r.contentLength >= 0, b) + l3;
    OptData(r.contentType != [], Pair(Ascii("content-type"), r.contentType), l4);
  }

  /** What is left to write, and that it fits. */
  ghost predicate Room(init: Bytes, n: nat, done: seq<Pair>, rest: seq<Pair>) {
    |done| + |rest| <= n && SizesFit(rest) && 4 + 8 * n + |Data(done + rest)| <= |init|
  }

  /** One more header written, if the response has it. */
  method PutIf(it: Iter, c: bool, p: Pair, literal: bool, ghost init: Bytes, ghost n: nat,
               ghost done: seq<Pair>, ghost rest: seq<Pair>)
    requires it.Writing(init, n, done) && Room(init, n, done, Opt(c, p) + rest)
    modifies it, it.buf
    ensures it.Writing(init, n, done + Opt(c, p)) && Room(init, n, done + Opt(c, p), rest)
  {
    hide Layout, Data;
    assert done + (Opt(c, p) + rest) == (done + Opt(c, p)) + rest;
    SizesOfParts(Opt(c, p), rest);
    if c {
      AppendFits(done, [p] + rest, 0);
      assert done + ([p] + rest)[..0] == done;
      if literal {
        var ok := it.PutLiteral(p, init, n, done);
      } else {
        var ok := it.Put(p, init, n, done);
      }
    } else {
      assert done + Opt(c, p) == done;
    }
  }

  /** The added headers in the fill pass. */
  method FillAdded(it: Iter, r: Response, ghost init: Bytes, ghost n: nat, ghost done: seq<Pair>)
    requires it.Writing(init, n, done) && Room(init, n, done, Added(r))
    modifies it, it.buf
    ensures it.Writing(init, n, done + Added(r))
  {
    hide Room, Decimal, Ascii, Opt, Layout, Data;
    var a := Pair(Ascii("content-type"), r.contentType);
    var b := ContentLength(r);
    var hasLength := !r.hasContentLengthHeader && r.contentLength >= 0;
    var connection := Ascii("close");
    if r.status == NGX_HTTP_SWITCHING_PROTOCOLS {
      connection := Ascii("upgrade");
    } else if r.keepalive {
      connection := Ascii("keep-alive");
    }
    var c := Pair(Ascii("connection"), connection);
    var d := Pair(Ascii("transfer-encoding"), Ascii("chunked"));
    var e := Pair(Ascii(":status"), Decimal(r.status));
    ghost var l1 := Opt(r.status != 0, e) + [];
    ghost var l2 := Opt(r.chunked, d) + l1;
    ghost var l3 := Opt(true, c) + l2;
    ghost var l4 := Opt(hasLength, b) + l3;
    ghost var d1 := done + Opt(r.contentType != [], a);
    ghost var d2 := d1 + Opt(hasLength, b);
    ghost var d3 := d2 + Opt(true, c);
    ghost var d4 := d3 + Opt(r.chunked, d);
    PutIf(it, |r.contentType| != 0, a, false, init, n, done, l4);
    PutIf(it, hasLength, b, false, init, n, d1, l3);
    PutIf(it, true, c, true, init, n, d2, l2);
    PutIf(it, r.chunked, d, true, init, n, d3, l1);
    PutIf(it, r.status != 0, e, false, init, n, d4, []);
    Reassociate(done, Opt(r.contentType != [], a), Opt(hasLength, b), Opt(true, c), Opt(r.chunked, d),
                Opt(r.status != 0, e));
  }

  lemma Reassociate(s: seq<Pair>, a: seq<Pair>, b: seq<Pair>, c: seq<Pair>, d: seq<Pair>, e: seq<Pair>)
    ensures s + a + b + c + d + e == s + (a + (b + (c + (d + (e + [])))))
  {
  }

  // ------------------------------------------------------------------------------------
  // The whole function

  /** The size asked for: four bytes more than the intended map needs. */
  function AskedSize(r: Response): nat {
    EncodedSize(Intended(r)) + 4
  }

  lemma ProducedHasRoom(r: Response, init: Bytes)
    requires r.parts != [] && EncodedSize(Intended(r)) + 4 < INT32_LIMIT && |init| == AskedSize(r)
    ensures IsInt32(|Intended(r)|) && SizesFit(Produced(r)) && |Produced(r)| <= |Intended(r)|
    ensures 4 + 8 * |Intended(r)| + |Data(Produced(r))| <= |init|
    ensures var live := Live(r.parts[|r.parts| - 1]);
      && SizesFit(live) && |live| <= |Intended(r)| && 4 + 8 * |Intended(r)| + |Data(live)| <= |init|
      && Room(init, |Intended(r)|, live, Added(r))
  {
    hide Added, Live, Data, SizesFit;
    IntendedParts(r);
    FitsSizes(Intended(r));
    SizesOfParts(Skipped(r), Produced(r));
    SizesOfParts(Live(r.parts[|r.parts| - 1]), Added(r));
    DataConcat(Skipped(r), Produced(r));
    DataConcat(Live(r.parts[|r.parts| - 1]), Added(r));
  }

  lemma FlattenLast(parts: seq<seq<Element>>)
    requires parts != []
    ensures Flatten(parts[|parts| - 1..]) == parts[|parts| - 1]
  {
    var tail := parts[|parts| - 1..];
    assert tail[..|tail| - 1] == [];
    assert Flatten([]) == [];
  }

  /** ngx_http_wasm_resp_get_headers, for any bytes the guest left in the block. `memOk` says
      whether the request pool has memory for the two rendered numbers. */
  method WriteResponseHeaders(r: Response, memOk: bool, granted: bool)
    returns (rc: int, buf: array?<byte>, ghost init: Bytes)
    requires ListShape(r.parts) && EncodedSize(Intended(r)) + 4 < INT32_LIMIT
    ensures rc == if !memOk && (r.status != 0 || (!r.hasContentLengthHeader && r.contentLength >= 0))
                  then PROXY_RESULT_INTERNAL_FAILURE
                  else if !granted then PROXY_RESULT_INVALID_MEMORY_ACCESS
                  else PROXY_RESULT_OK
    ensures rc == PROXY_RESULT_OK ==>
              && buf != null && |init| == AskedSize(r)
              && IsInt32(|Intended(r)|) && SizesFit(Produced(r)) && |Produced(r)| <= |Intended(r)|
              && 4 + 8 * |Intended(r)| + |Data(Produced(r))| <= |init|
              && buf[..] == Layout(init, |Intended(r)|, Produced(r))
  {
    hide Layout, Data, Added, Live;
    init := [];
    var count, size, part := MeasureList(r.parts);
    if !memOk && (r.status != 0 || (!r.hasContentLengthHeader && r.contentLength >= 0)) {
      return PROXY_RESULT_INTERNAL_FAILURE, null, init;
    }
    var addedCount, addedSize := AddedSize(r);
    DataConcat(Live(Flatten(r.parts)), Added(r));
    count, size := count + addedCount, size + addedSize;
    size := size + 4 + count * 2 * 4;
    if !granted {
      return PROXY_RESULT_INVALID_MEMORY_ACCESS, null, init;
    }
    buf := new byte[size];
    init := buf[..];
    ProducedHasRoom(r, init);
    FillBlock(r, part, count, buf);
    rc := PROXY_RESULT_OK;
  }

  /** The fill pass, into a block of the size that was asked for. */
  method FillBlock(r: Response, part: nat, count: nat, buf: array<byte>)
    requires ListShape(r.parts) && part == |r.parts| - 1 && count == |Intended(r)| && buf.Length == AskedSize(r)
    requires EncodedSize(Intended(r)) + 4 < INT32_LIMIT
    modifies buf
    ensures IsInt32(count) && SizesFit(Produced(r)) && |Produced(r)| <= count
    ensures 4 + 8 * count + |Data(Produced(r))| <= buf.Length
    ensures buf[..] == Layout(old(buf[..]), count, Produced(r))
  {
    hide Layout, Data, Added, Live, Intended;
    ghost var init := buf[..];
    ProducedHasRoom(r, init);
    CountFits(r);
    InitMap(buf, count);
    var it := new Iter(buf);
    StartWriting(it, init, count);
    FlattenLast(r.parts);
    FillList(it, r.parts[part..], init, count);
    FillAdded(it, r, init, count, Live(r.parts[part]));
  }

  lemma CountFits(r: Response)
    requires r.parts != [] && EncodedSize(Intended(r)) + 4 < INT32_LIMIT
    ensures IsInt32(2 * |Intended(r)|) && 4 + 8 * |Intended(r)| <= AskedSize(r)
  {
  }

  /** When no earlier part holds a live header, the guest reads exactly what is intended, and
      the block ends with four bytes nobody wrote. */
  lemma OnePartIsExact(r: Response, init: Bytes)
    requires r.parts != [] && EncodedSize(Intended(r)) + 4 < INT32_LIMIT && |init| == AskedSize(r)
    requires Skipped(r) == []
    ensures IsInt32(|Intended(r)|) && SizesFit(Produced(r)) && Produced(r) == Intended(r)
    ensures Layout(init, |Intended(r)|, Produced(r)) == Encode(Intended(r)) + init[|init| - 4..]
    ensures Holds(Layout(init, |Intended(r)|, Produced(r)), Intended(r))
  {
    hide Added, Live, Layout, Encode, Data, Holds;
    IntendedParts(r);
    assert [] + Produced(r) == Produced(r);
    LayoutComplete(init, Intended(r));
    EncodedHolds(Intended(r), init[|init| - 4..]);
  }

  /** A block the guest left filled with 0xFF. */
  function Filled(n: nat): (b: Bytes)
    ensures |b| == n
  {
    seq(n, _ => 255)
  }

  /** An entry that is never written keeps the length -1 of a filled block, so no list is held. */
  lemma SkippedIsLost(r: Response, qs: seq<Pair>)
    requires r.parts != [] && EncodedSize(Intended(r)) + 4 < INT32_LIMIT && Skipped(r) != []
    requires IsInt32(|Intended(r)|) && SizesFit(Produced(r)) && |Produced(r)| <= |Intended(r)|
    requires 4 + 8 * |Intended(r)| + |Data(Produced(r))| <= AskedSize(r)
    ensures !Holds(Layout(Filled(AskedSize(r)), |Intended(r)|, Produced(r)), qs)
  {
    hide Added, Live, Data, SizeTable, Intended, Produced, Skipped;
    IntendedParts(r);
    var n := |Intended(r)|;
    var b := Layout(Filled(AskedSize(r)), n, Produced(r));
    assert b[0..4] == Le32(n);
    Le32RoundTrip(n);
    var head := Le32(n) + SizeTable(Produced(r));
    var k := |Produced(r)|;
    var gap := Filled(AskedSize(r))[4 + 8 * k..4 + 8 * n];
    var rest := Data(Produced(r)) + Filled(AskedSize(r))[4 + 8 * n + |Data(Produced(r))|..];
    assert b == head + gap + rest;
    SliceMiddle(head, gap, rest, 8 * (n - k) - 4, 8 * (n - k));
    assert |head| + 8 * (n - k) - 4 == 8 * n;
    FilledSlice(AskedSize(r), 4 + 8 * k, 4 + 8 * n, 8 * (n - k) - 4);
    assert b[8 * n..8 * n + 4] == [255, 255, 255, 255];
    assert Int32At(b, 8 + 8 * (n - 1)) == -1;
    if |qs| == n {
      assert !HoldsPair(b, qs, n - 1);
    }
  }

  lemma FilledSlice(n: nat, i: nat, j: nat, at: nat)
    requires i + at + 4 <= j <= n
    ensures Filled(n)[i..j][at..at + 4] == [255, 255, 255, 255]
  {
    var s := Filled(n)[i..j][at..at + 4];
    forall k | 0 <= k < 4
      ensures s[k] == 255
    {
      assert s[k] == Filled(n)[i..j][at + k] == Filled(n)[i + at + k];
    }
    assert s == [s[0], s[1], s[2], s[3]];
  }

  /** The guest can rely on the map, whatever its block held before, exactly when every live
      header sits in the last part of the list. */
  lemma ExactIffLastPart(r: Response)
    requires r.parts != [] && EncodedSize(Intended(r)) + 4 < INT32_LIMIT
    ensures IsInt32(|Intended(r)|) && SizesFit(Produced(r)) && |Produced(r)| <= |Intended(r)|
    ensures 4 + 8 * |Intended(r)| + |Data(Produced(r))| <= AskedSize(r)
    ensures (forall init: Bytes :: |init| == AskedSize(r) ==>
               Holds(Layout(init, |Intended(r)|, Produced(r)), Intended(r)))
            <==> Skipped(r) == []
  {
    hide Added, Live, Layout, Data, Holds, SizesFit;
    ProducedHasRoom(r, Filled(AskedSize(r)));
    if Skipped(r) == [] {
      forall init: Bytes | |init| == AskedSize(r)
        ensures Holds(Layout(init, |Intended(r)|, Produced(r)), Intended(r))
      {
        OnePartIsExact(r, init);
      }
    } else {
      SkippedIsLost(r, Intended(r));
    }
  }
}
