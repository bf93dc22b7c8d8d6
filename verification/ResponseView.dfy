/**
 What is read in a response under which name: by a guest in the headers that nginx adds to its own
 response, and in the response of a callout as Lua hands it over.
 */
module ResponseView {
  import opened Common
  import opened HeaderMap
  import opened Serializers
  import opened ResponseHeaders
  import opened HeaderLookup
  import opened Callout
  import opened LocalResponse

  // ------------------------------------------------------------------------------------
  // The headers that nginx adds

  /** The names of the added headers differ. */
  lemma AddedNames()
    ensures |Ascii("content-type")| == 12 && |Ascii("content-length")| == 14 && |Ascii("connection")| == 10
    ensures |Ascii("transfer-encoding")| == 17 && |Ascii(":status")| == 7
  {
  }

  lemma FirstOfOpt(c: bool, p: Pair, rest: seq<Pair>, name: Bytes)
    ensures FirstNamed(Opt(c, p) + rest, name) == if c && p.key == name then Some(p.value) else FirstNamed(rest, name)
  {
    if c {
      assert (Opt(c, p) + rest)[1..] == rest;
    } else {
      assert Opt(c, p) + rest == rest;
    }
  }

  /** What the guest finds under the name of each header that nginx adds, if the response does not have it
      among its own; there is one entry for each of these and no other. */
  lemma AddedAreFound(r: Response)
    ensures |Added(r)| == 1 + (if r.contentType != [] then 1 else 0)
                          + (if !r.hasContentLengthHeader && r.contentLength >= 0 then 1 else 0)
                          + (if r.chunked then 1 else 0) + (if r.status != 0 then 1 else 0)
    ensures FirstNamed(Added(r), Ascii("content-type")) == if r.contentType != [] then Some(r.contentType) else None
    ensures var v := FirstNamed(Added(r), Ascii("content-length"));
      && (v.Some? <==> !r.hasContentLengthHeader && r.contentLength >= 0)
      && (v.Some? ==> IsTextOf(v.value, r.contentLength))
    ensures FirstNamed(Added(r), Ascii("connection"))
         == Some(if r.status == 101 then Ascii("upgrade")
                 else if r.keepalive then Ascii("keep-alive")
                 else Ascii("close"))
    ensures FirstNamed(Added(r), Ascii("transfer-encoding")) == if r.chunked then Some(Ascii("chunked")) else None
    ensures var v := FirstNamed(Added(r), Ascii(":status"));
      (v.Some? <==> r.status != 0) && (v.Some? ==> IsTextOf(v.value, r.status))
  {
    hide Ascii, FirstNamed, Decimal, Connection, IsTextOf;
    forall name: Bytes
      ensures FirstNamed(Added(r), name) == AddedNamed(r, name)
    {
      AddedByName(r, name);
    }
    AddedNames();
    ConnectionIs(r);
    if r.contentLength >= 0 {
      DecimalIsText(r.contentLength);
    }
    DecimalIsText(r.status);
  }

  lemma ConnectionIs(r: Response)
    ensures Connection(r)
         == if r.status == 101 then Ascii("upgrade") else if r.keepalive then Ascii("keep-alive") else Ascii("close")
  {
  }

  /** The same as one list of cases. */
  function AddedNamed(r: Response, name: Bytes): Option<Bytes> {
    if r.contentType != [] && name == Ascii("content-type") then Some(r.contentType)
    else if !r.hasContentLengthHeader && r.contentLength >= 0 && name == Ascii("content-length") then
      Some(Decimal(r.contentLength))
    else if name == Ascii("connection") then Some(Connection(r))
    else if r.chunked && name == Ascii("transfer-encoding") then Some(Ascii("chunked"))
    else if r.status != 0 && name == Ascii(":status") then Some(Decimal(r.status))
    else None
  }

  lemma AddedByName(r: Response, name: Bytes)
    ensures FirstNamed(Added(r), name) == AddedNamed(r, name)
  {
    hide Ascii, FirstNamed, Opt, Decimal, Connection;
    var type_ := Pair(Ascii("content-type"), r.contentType);
    var connection := Pair(Ascii("connection"), Connection(r));
    var encoding := Pair(Ascii("transfer-encoding"), Ascii("chunked"));
    var status := Pair(Ascii(":status"), Decimal(r.status));
    var e := Opt(r.status != 0, status) + [];
    var d := Opt(r.chunked, encoding) + e;
    var c := Opt(true, connection) + d;
    var b := Opt(!r.hasContentLengthHeader && r.contentLength >= 0, ContentLength(r)) + c;
    FirstOfOpt(r.contentType != [], type_, b, name);
    FirstOfOpt(!r.hasContentLengthHeader && r.contentLength >= 0, ContentLength(r), c, name);
    FirstOfOpt(true, connection, d, name);
    FirstOfOpt(r.chunked, encoding, e, name);
    FirstOfOpt(r.status != 0, status, [], name);
    NothingNamed(name);
  }

  lemma NothingNamed(name: Bytes)
    ensures FirstNamed([], name) == None
  {
  }

  // ------------------------------------------------------------------------------------
  // The response of a callout

  /** How many values the first k headers have. */
  function ValuesBefore(hs: seq<(Bytes, LuaValue)>, k: nat): nat
    requires k <= |hs|
  {
    if k == 0 then 0
    else ValuesBefore(hs, k - 1) + match hs[k - 1].1 case One(_) => 1 case Many(vs) => |vs|
  }

  /** The j-th value of a header. */
  function ValueAt(v: LuaValue, j: nat): Bytes
    requires v.Many? ==> j < |v.vs|
  {
    match v
    case One(x) => x
    case Many(vs) => vs[j]
  }

  lemma {:induction false} FlatLength(hs: seq<(Bytes, LuaValue)>, k: nat)
    requires k <= |hs|
    ensures |Flat(hs[..k])| == ValuesBefore(hs, k)
  {
    if k > 0 {
      FlatLength(hs, k - 1);
      FlatNext(hs, k - 1);
    } else {
      assert hs[..0] == [];
    }
  }

  /** The table of headers has one entry for each value of each header, in their order: the name in small
      letters, and the value as it is. */
  lemma FlatEntry(hs: seq<(Bytes, LuaValue)>, k: nat, j: nat)
    requires k < |hs| && match hs[k].1 case One(_) => j == 0 case Many(vs) => j < |vs|
    ensures |Flat(hs)| == ValuesBefore(hs, |hs|) && ValuesBefore(hs, k) + j < |Flat(hs)|
    ensures Flat(hs)[ValuesBefore(hs, k) + j] == Pair(Lower(hs[k].0), ValueAt(hs[k].1, j))
  {
    hide Flat, ValuesBefore, Lower;
    FlatLength(hs, k);
    FlatLength(hs, |hs|);
    assert hs[..|hs|] == hs;
    FlatNext(hs, k);
    FlatIsPrefix(hs, k + 1);
    assert Flat(hs[..k + 1])[ValuesBefore(hs, k) + j] == Spread(hs[k].0, ValueSeq(hs[k].1))[j];
  }

  lemma {:induction false} FlatIsPrefix(hs: seq<(Bytes, LuaValue)>, k: nat)
    requires k <= |hs|
    ensures Flat(hs[..k]) <= Flat(hs)
  {
    if k == |hs| {
      assert hs[..k] == hs;
    } else {
      FlatIsPrefix(hs[..|hs| - 1], k);
      assert hs[..|hs| - 1][..k] == hs[..k];
    }
  }

  /** The entry after them gives the status as a number without leading zeros. */
  lemma StatusEntry(a: Answer)
    ensures StatusPair(a).key == Ascii(":status") && IsTextOf(StatusPair(a).value, a.status)
  {
    hide Ascii, Decimal;
    DecimalIsText(a.status);
  }
}
