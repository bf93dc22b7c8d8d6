/** proxy_wasm_map_iter: two cursors over a caller's buffer, moved by each call. */
module MapIterator {
  import opened Common
  import opened HeaderMap

  /** The effect of one *(int32_t *) store. */
  method StoreInt32(buf: array<byte>, at: nat, v: int)
    requires at + 4 <= buf.Length && IsInt32(v)
    modifies buf
    ensures buf[..] == Patch(old(buf[..]), at, Le32(v))
  {
    var b := Le32(v);
    buf[at], buf[at + 1], buf[at + 2], buf[at + 3] := b[0], b[1], b[2], b[3];
  }

  /** The effect of storing one char. */
  method StoreByte(buf: array<byte>, at: nat, v: byte)
    requires at < buf.Length
    modifies buf
    ensures buf[..] == Patch(old(buf[..]), at, [v])
  {
    buf[at] := v;
  }

  /** ngx_memcpy into the buffer. */
  method CopyBytes(buf: array<byte>, at: nat, src: Bytes)
    requires at + |src| <= buf.Length
    modifies buf
    ensures buf[..] == Patch(old(buf[..]), at, src)
  {
    var i := 0;
    while i < |src|
      invariant i <= |src|
      invariant buf[..] == Patch(old(buf[..]), at, src[..i])
    {
      buf[at + i] := src[i];
      assert src[..i + 1] == src[..i] + [src[i]];
      i := i + 1;
    }
    assert src[..i] == src;
  }

  /** proxy_wasm_map_init_map. */
  method InitMap(buf: array<byte>, len: int)
    requires 4 <= buf.Length && IsInt32(len)
    modifies buf
    ensures buf[..] == Patch(old(buf[..]), 0, Le32(len))
  {
    StoreInt32(buf, 0, len);
  }

  class Iter {
    const buf: array<byte>
    var idx: int
    var len: int
    var sizePtr: nat
    var dataPtr: int

    /** proxy_wasm_map_init_iter. */
    constructor (buf: array<byte>)
      requires 4 <= buf.Length
      ensures this.buf == buf && idx == 0 && len == Int32At(buf[..], 0)
      ensures sizePtr == 4 && dataPtr == 4 + 4 * Wrap32(2 * len)
    {
      this.buf := buf;
      idx := 0;
      len := FromLe32(buf[0..4]);
      sizePtr := 4;
      dataPtr := 4 + 4 * Wrap32(2 * FromLe32(buf[0..4]));
      new;
      assert buf[..][0..4] == buf[0..4];
    }

    /** The next pair is the i-th of ps, or the end. */
    ghost predicate Reading(ps: seq<Pair>, i: nat)
      reads this, buf
    {
      && Holds(buf[..], ps) && i <= |ps| && idx == i && len == |ps|
      && sizePtr == 4 + 8 * i && dataPtr == KeyAt(ps, i)
    }

    /** ps are written, over what was init, and n pairs are to be written in all. */
    ghost predicate Writing(init: Bytes, n: nat, ps: seq<Pair>)
      reads this, buf
    {
      && IsInt32(n) && SizesFit(ps) && |ps| <= n && 4 + 8 * n + |Data(ps)| <= |init|
      && buf[..] == Layout(init, n, ps) && idx == |ps| && len == n
      && sizePtr == 4 + 8 * |ps| && dataPtr == 4 + 8 * n + |Data(ps)|
    }

    /** proxy_wasm_map_next. The pointers it returns are offsets into the buffer. */
    method Next() returns (ok: bool, key: int, keyLen: int, val: int, valLen: int)
      requires idx != len ==> sizePtr + 8 <= buf.Length
      modifies this
      ensures ok == (old(idx) != old(len)) && len == old(len)
      ensures !ok ==> idx == old(idx) && sizePtr == old(sizePtr) && dataPtr == old(dataPtr)
      ensures ok ==>
                && keyLen == Int32At(buf[..], old(sizePtr)) && valLen == Int32At(buf[..], old(sizePtr) + 4)
                && key == old(dataPtr) && val == key + keyLen + 1
                && idx == old(idx) + 1 && sizePtr == old(sizePtr) + 8 && dataPtr == val + valLen + 1
    {
      if idx == len {
        return false, 0, 0, 0, 0;
      }
      keyLen := FromLe32(buf[sizePtr..sizePtr + 4]);
      assert buf[..][sizePtr..sizePtr + 4] == buf[sizePtr..sizePtr + 4];
      sizePtr := sizePtr + 4;
      valLen := FromLe32(buf[sizePtr..sizePtr + 4]);
      assert buf[..][sizePtr..sizePtr + 4] == buf[sizePtr..sizePtr + 4];
      sizePtr := sizePtr + 4;
      key := dataPtr;
      dataPtr := dataPtr + keyLen + 1;
      val := dataPtr;
      dataPtr := dataPtr + valLen + 1;
      idx := idx + 1;
      ok := true;
    }

    /** proxy_wasm_map_next on a buffer that holds ps: the pairs come out in order, and then no more. */
    method NextPair(ghost ps: seq<Pair>, ghost i: nat) returns (r: Option<Pair>)
      requires Reading(ps, i)
      modifies this
      ensures r == if i < |ps| then Some(ps[i]) else None
      ensures Reading(ps, if i < |ps| then i + 1 else i)
    {
      if idx != len {
        assert HoldsPair(buf[..], ps, i);
        DataNext(ps, i);
      }
      var ok, key, keyLen, val, valLen := Next();
      if !ok {
        return None;
      }
      assert buf[..][key..key + keyLen] == buf[key..key + keyLen];
      assert buf[..][val..val + valLen] == buf[val..val + valLen];
      r := Some(Pair(buf[key..key + keyLen], buf[val..val + valLen]));
    }

    /** The walk has come over ps, in any buffer. */
    ghost predicate Walking(ps: seq<Pair>)
      reads this, buf
    {
      && 4 <= buf.Length <= UINT32 && Walked(buf[..], ps) && idx == |ps| && len == Int32At(buf[..], 0)
      && sizePtr == 4 + 8 * |ps| && dataPtr == TextAt(buf[..]) + |Data(ps)|
    }

    /** proxy_wasm_map_next on any buffer. `inside` is false once a cell or a string of the next entry
        is not inside the buffer, which happens at some entry exactly if the numbers in the buffer do
        not go together. */
    method Step(ghost ps: seq<Pair>) returns (inside: bool, r: Option<Pair>)
      requires Walking(ps)
      modifies this
      ensures !inside ==> r.None? && !MapFits(buf[..])
      ensures inside && r.None? ==> Walking(ps) && Holds(buf[..], ps)
      ensures r.Some? ==> Walking(ps + [r.value]) && |ps| != Int32At(buf[..], 0) && 12 + 8 * |ps| <= buf.Length
    {
      hide Int32At, Data, MapFits, Holds;
      ghost var b := buf[..];
      if idx == len {
        WalkedAll(b, ps);
        return true, None;
      }
      if sizePtr + 8 > buf.Length {
        NextIsThere(b, ps);
        return false, None;
      }
      var ok, key, keyLen, val, valLen := Next();
      if keyLen < 0 || valLen < 0 || key < 0 || val + valLen > buf.Length {
        NextIsThere(b, ps);
        return false, None;
      }
      assert b[key..key + keyLen] == buf[key..key + keyLen] && b[val..val + valLen] == buf[val..val + valLen];
      var p := Pair(buf[key..key + keyLen], buf[val..val + valLen]);
      assert (ps + [p])[..|ps|] == ps;
      WalkedSnoc(b, ps, p);
      return true, Some(p);
    }

    /** proxy_wasm_map_reserve: the lengths and the terminators are written, the bytes are the caller's. */
    method Reserve(keyLen: nat, valLen: nat) returns (ok: bool, key: nat, val: nat)
      requires keyLen < INT32_LIMIT && valLen < INT32_LIMIT
      requires idx != len ==> 0 <= dataPtr && sizePtr + 8 <= buf.Length && dataPtr + keyLen + valLen + 2 <= buf.Length
      modifies this, buf
      ensures ok == (old(idx) != old(len)) && len == old(len)
      ensures !ok ==> idx == old(idx) && sizePtr == old(sizePtr) && dataPtr == old(dataPtr) && buf[..] == old(buf[..])
      ensures ok ==>
                && key == old(dataPtr) && val == key + keyLen + 1
                && idx == old(idx) + 1 && sizePtr == old(sizePtr) + 8 && dataPtr == val + valLen + 1
                && buf[..] == Reserved(old(buf[..]), old(sizePtr), key, keyLen, valLen)
    {
      hide Patch, Le32;
      if idx == len {
        return false, 0, 0;
      }
      StoreInt32(buf, sizePtr, keyLen);
      sizePtr := sizePtr + 4;
      StoreInt32(buf, sizePtr, valLen);
      sizePtr := sizePtr + 4;
      key := dataPtr;
      dataPtr := dataPtr + keyLen;
      StoreByte(buf, dataPtr, 0);
      dataPtr := dataPtr + 1;
      val := dataPtr;
      dataPtr := dataPtr + valLen;
      StoreByte(buf, dataPtr, 0);
      dataPtr := dataPtr + 1;
      idx := idx + 1;
      ok := true;
    }

    /** What the serializers do for each pair: reserve, then copy the key and the value. */
    method Put(p: Pair, ghost init: Bytes, ghost n: nat, ghost ps: seq<Pair>) returns (ok: bool)
      requires Writing(init, n, ps) && |ps| < n
      requires PairFits(p) && 4 + 8 * n + |Data(ps)| + |PairBytes(p)| <= |init|
      modifies this, buf
      ensures ok && Writing(init, n, ps + [p])
    {
      hide Layout, Data, PairBytes, Reserved, Written, Patch;
      ghost var b, s, d := buf[..], sizePtr, dataPtr;
      var key, val;
      ok, key, val := Reserve(|p.key|, |p.value|);
      CopyBytes(buf, key, p.key);
      CopyBytes(buf, val, p.value);
      ReservedThenCopied(b, s, d, p);
      LayoutSnoc(init, n, ps, p);
    }

    /** proxy_wasm_map_reserve_literal_with_len: the terminators come with the copies. */
    method PutLiteral(p: Pair, ghost init: Bytes, ghost n: nat, ghost ps: seq<Pair>) returns (ok: bool)
      requires Writing(init, n, ps) && |ps| < n
      requires PairFits(p) && 4 + 8 * n + |Data(ps)| + |PairBytes(p)| <= |init|
      modifies this, buf
      ensures ok && Writing(init, n, ps + [p])
    {
      hide Layout, Data, PairBytes, Written, Patch;
      ghost var b, s, d := buf[..], sizePtr, dataPtr;
      if idx == len {
        return false;
      }
      StoreInt32(buf, sizePtr, |p.key|);
      sizePtr := sizePtr + 4;
      StoreInt32(buf, sizePtr, |p.value|);
      sizePtr := sizePtr + 4;
      CopyBytes(buf, dataPtr, p.key + [0]);
      dataPtr := dataPtr + |p.key| + 1;
      CopyBytes(buf, dataPtr, p.value + [0]);
      dataPtr := dataPtr + |p.value| + 1;
      CopiedWithTerminators(b, s, d, p);
      LayoutSnoc(init, n, ps, p);
      idx := idx + 1;
      ok := true;
    }
  }

  /** In a buffer whose numbers go together the next entry is inside. */
  lemma NextIsThere(b: Bytes, ps: seq<Pair>)
    requires Walked(b, ps) && |ps| != Int32At(b, 0)
    ensures MapFits(b) ==>
              && 12 + 8 * |ps| <= |b| && CellAt(b, 2 * |ps|) >= 0 && CellAt(b, 2 * |ps| + 1) >= 0
              && var k := TextAt(b) + |Data(ps)|;
                 0 <= k && k + CellAt(b, 2 * |ps|) + 1 + CellAt(b, 2 * |ps| + 1) <= |b|
  {
    hide Int32At, Data;
    if MapFits(b) {
      FitsHolds(b);
      HeldNext(b, ps, PairsIn(b, Int32At(b, 0)));
    }
  }

  lemma ReservedThenCopied(b: Bytes, s: nat, d: nat, p: Pair)
    requires PairFits(p) && s + 8 <= d && d + |PairBytes(p)| <= |b|
    ensures Patch(Patch(Reserved(b, s, d, |p.key|, |p.value|), d, p.key), d + |p.key| + 1, p.value)
         == Written(b, s, d, p)
  {
  }

  lemma CopiedWithTerminators(b: Bytes, s: nat, d: nat, p: Pair)
    requires PairFits(p) && s + 8 <= d && d + |PairBytes(p)| <= |b|
    ensures Patch(Patch(Patch(Patch(b, s, Le32(|p.key|)), s + 4, Le32(|p.value|)), d, p.key + [0]),
                  d + |p.key| + 1, p.value + [0])
         == Written(b, s, d, p)
  {
  }

  function Reserved(b: Bytes, s: nat, d: nat, keyLen: nat, valLen: nat): Bytes
    requires keyLen < INT32_LIMIT && valLen < INT32_LIMIT
    requires s + 8 <= |b| && d + keyLen + valLen + 2 <= |b|
  {
    var b1 := Patch(Patch(b, s, Le32(keyLen)), s + 4, Le32(valLen));
    Patch(Patch(b1, d + keyLen, [0]), d + keyLen + 1 + valLen, [0])
  }

  /** Writing a whole list the way the serializers do: count, then one entry after the other. */
  method WriteMap(buf: array<byte>, ps: seq<Pair>)
    requires Fits(ps) && EncodedSize(ps) <= buf.Length
    modifies buf
    ensures buf[..] == Encode(ps) + old(buf[EncodedSize(ps)..])
  {
    hide Encode, Layout;
    ghost var init := buf[..];
    FitsSizes(ps);
    InitMap(buf, |ps|);
    EmptyLayout(init, |ps|);
    Le32RoundTrip(|ps|);
    var it := new Iter(buf);
    var i := 0;
    while i < |ps|
      invariant i <= |ps| && it.buf == buf && fresh(it)
      invariant it.Writing(init, |ps|, ps[..i])
    {
      DataNextFits(ps, i);
      var ok := it.Put(ps[i], init, |ps|, ps[..i]);
      i := i + 1;
    }
    assert ps[..i] == ps;
    LayoutComplete(init, ps);
  }

  lemma EmptyLayout(init: Bytes, n: nat)
    requires IsInt32(n) && 4 + 8 * n <= |init|
    ensures Data([]) == [] && SizesFit([])
    ensures Patch(init, 0, Le32(n)) == Layout(init, n, [])
    ensures Patch(init, 0, Le32(n))[0..4] == Le32(n)
  {
  }

  lemma DataNextFits(ps: seq<Pair>, i: nat)
    requires i < |ps|
    ensures ps[..i + 1] == ps[..i] + [ps[i]]
    ensures |Data(ps[..i])| + |PairBytes(ps[i])| <= |Data(ps)|
    ensures SizesFit(ps) ==> PairFits(ps[i])
  {
    DataAt(ps, i);
  }

  /** Reading a buffer from the start until proxy_wasm_map_next says there is no more. */
  method ReadMap(buf: array<byte>, ghost ps: seq<Pair>) returns (out: seq<Pair>)
    requires Holds(buf[..], ps)
    ensures out == ps
  {
    var it := new Iter(buf);
    FirstKeyAt(ps);
    ghost var i: nat := 0;
    out := [];
    while true
      invariant it.buf == buf && fresh(it) && i <= |ps| && it.Reading(ps, i)
      invariant out == ps[..i]
      decreases |ps| - i
    {
      var r := it.NextPair(ps, i);
      if r.None? {
        return;
      }
      out := out + [r.value];
      assert ps[..i + 1] == ps[..i] + [ps[i]];
      i := i + 1;
    }
  }

  lemma FirstKeyAt(ps: seq<Pair>)
    ensures KeyAt(ps, 0) == 4 + 8 * |ps|
  {
    assert ps[..0] == [];
  }

  /** What is written with one entry per pair is read back, pair by pair, and nothing more. */
  method MapRoundTrip(buf: array<byte>, ps: seq<Pair>) returns (out: seq<Pair>)
    requires Fits(ps) && EncodedSize(ps) <= buf.Length
    modifies buf
    ensures out == ps
  {
    WriteMap(buf, ps);
    EncodedHolds(ps, buf[EncodedSize(ps)..]);
    assert buf[..] == Encode(ps) + buf[EncodedSize(ps)..];
    out := ReadMap(buf, ps);
  }
}
