/**
 proxy_wasm_map: a list of byte-string pairs laid out in one buffer, as the number of pairs,
 a table of their lengths and then the bytes, each string followed by a NUL.
 */
module HeaderMap {
  import opened Common

  datatype Pair = Pair(key: Bytes, value: Bytes)

  // ------------------------------------------------------------------------------------
  // int32_t cells, little-endian, two's complement

  predicate IsInt32(v: int) {
    -INT32_LIMIT <= v < INT32_LIMIT
  }

  /** The value of an int32_t expression whose exact value is v. */
  function Wrap32(v: int): (w: int)
    ensures IsInt32(w) && (w == v <==> IsInt32(v))
  {
    (v + INT32_LIMIT) % UINT32 - INT32_LIMIT
  }

  function Le32(v: int): (b: Bytes)
    requires IsInt32(v)
    ensures |b| == 4
  {
    var u := v % UINT32;
    [u % 256, u / 256 % 256, u / 65536 % 256, u / 16777216]
  }

  function FromLe32(b: Bytes): (v: int)
    requires |b| == 4
    ensures IsInt32(v)
  {
    var u := b[0] as int + 256 * b[1] as int + 65536 * b[2] as int + 16777216 * b[3] as int;
    if u >= INT32_LIMIT then u - UINT32 else u
  }

  lemma Le32RoundTrip(v: int)
    requires IsInt32(v)
    ensures FromLe32(Le32(v)) == v
  {
    BytesOf(v % UINT32);
  }

  lemma BytesOf(u: nat)
    requires u < UINT32
    ensures u == u % 256 + 256 * (u / 256 % 256) + 65536 * (u / 65536 % 256) + 16777216 * (u / 16777216)
  {
    var q1, q2 := u / 256, u / 65536;
    assert u == u % 256 + 256 * q1;
    assert q1 == q1 % 256 + 256 * q2;
    assert q2 == q2 % 256 + 256 * (u / 16777216);
  }

  /** A wrapped value differs from the exact one by a multiple of 2^32. */
  lemma Wrap32IsCongruent(v: int)
    ensures (Wrap32(v) - v) % 0x1_0000_0000 == 0
  {
    var u := v + 0x8000_0000;
    assert u == u / 0x1_0000_0000 * 0x1_0000_0000 + u % 0x1_0000_0000;
    Multiple(-(u / 0x1_0000_0000));
  }

  lemma Multiple(k: int)
    ensures k * 0x1_0000_0000 % 0x1_0000_0000 == 0
  {
  }

  /** The byte order that guests rely on: the lowest byte comes first, and a negative value is stored as
      the one that is 2^32 above it. */
  lemma CellIsLittleEndian(v: int)
    requires -0x8000_0000 <= v < 0x8000_0000
    ensures var b := Le32(v);
      b[0] as int + 256 * b[1] as int + 65536 * b[2] as int + 16777216 * b[3] as int
      == if v >= 0 then v else v + 0x1_0000_0000
  {
    BytesOf(v % 0x1_0000_0000);
  }

  /** Every four bytes are the cell of the value that is read from them. */
  lemma CellOfBytes(b: Bytes)
    requires |b| == 4
    ensures Le32(FromLe32(b)) == b
  {
    var v := FromLe32(b);
    Le32RoundTrip(v);
    CellIsLittleEndian(v);
    var c := Le32(v);
    SameDigits(b[0], b[1], b[2], b[3], c[0], c[1], c[2], c[3]);
  }

  lemma SameDigits(a0: byte, a1: byte, a2: byte, a3: byte, b0: byte, b1: byte, b2: byte, b3: byte)
    requires a0 as int + 256 * a1 as int + 65536 * a2 as int + 16777216 * a3 as int
          == b0 as int + 256 * b1 as int + 65536 * b2 as int + 16777216 * b3 as int
    ensures a0 == b0 && a1 == b1 && a2 == b2 && a3 == b3
  {
    LowestDigit(a0, a1 as int + 256 * a2 as int + 65536 * a3 as int,
                b0, b1 as int + 256 * b2 as int + 65536 * b3 as int);
    LowestDigit(a1, a2 as int + 256 * a3 as int, b1, b2 as int + 256 * b3 as int);
    LowestDigit(a2, a3, b2, b3);
  }

  lemma LowestDigit(a: byte, x: int, b: byte, y: int)
    requires a as int + 256 * x == b as int + 256 * y
    ensures a == b && x == y
  {
  }

  /** b written over s from position `at` on. */
  function Patch(s: Bytes, at: nat, b: Bytes): (r: Bytes)
    requires at + |b| <= |s|
    ensures |r| == |s|
    ensures forall i :: 0 <= i < |s| ==> r[i] == if at <= i < at + |b| then b[i - at] else s[i]
  {
    s[..at] + b + s[at + |b|..]
  }

  lemma PatchMiddle(a: Bytes, old_: Bytes, new_: Bytes, c: Bytes)
    requires |new_| <= |old_|
    ensures Patch(a + old_ + c, |a|, new_) == a + new_ + old_[|new_|..] + c
  {
  }

  // ------------------------------------------------------------------------------------
  // The format

  predicate PairFits(p: Pair) {
    |p.key| < INT32_LIMIT && |p.value| < INT32_LIMIT
  }

  predicate SizesFit(ps: seq<Pair>) {
    forall p :: p in ps ==> PairFits(p)
  }

  function Cells(p: Pair): (r: Bytes)
    requires PairFits(p)
    ensures |r| == 8
  {
    Le32(|p.key|) + Le32(|p.value|)
  }

  function PairBytes(p: Pair): (r: Bytes)
    ensures |r| == |p.key| + |p.value| + 2
  {
    p.key + [0] + p.value + [0]
  }

  function SizeTable(ps: seq<Pair>): (r: Bytes)
    requires SizesFit(ps)
    ensures |r| == 8 * |ps|
  {
    if ps == [] then [] else SizeTable(ps[..|ps| - 1]) + Cells(ps[|ps| - 1])
  }

  function Data(ps: seq<Pair>): Bytes {
    if ps == [] then [] else Data(ps[..|ps| - 1]) + PairBytes(ps[|ps| - 1])
  }

  /** The number of bytes of a map, as the serializers add it up. */
  function EncodedSize(ps: seq<Pair>): nat {
    4 + 8 * |ps| + |Data(ps)|
  }

  predicate Fits(ps: seq<Pair>) {
    EncodedSize(ps) < INT32_LIMIT
  }

  lemma {:induction false} FitsSizes(ps: seq<Pair>)
    ensures forall p :: p in ps ==> |p.key| + |p.value| + 2 <= |Data(ps)|
    ensures Fits(ps) ==> SizesFit(ps) && IsInt32(|ps|)
  {
    if ps != [] {
      var init := ps[..|ps| - 1];
      FitsSizes(init);
      assert ps == init + [ps[|ps| - 1]];
    }
  }

  function Encode(ps: seq<Pair>): (r: Bytes)
    requires Fits(ps)
    ensures |r| == EncodedSize(ps)
  {
    FitsSizes(ps);
    Le32(|ps|) + SizeTable(ps) + Data(ps)
  }

  /** A buffer of which the count and the first |ps| of n entries are written, over `init`. */
  function Layout(init: Bytes, n: nat, ps: seq<Pair>): (r: Bytes)
    requires IsInt32(n) && SizesFit(ps) && |ps| <= n && 4 + 8 * n + |Data(ps)| <= |init|
    ensures |r| == |init|
  {
    Le32(n) + SizeTable(ps) + init[4 + 8 * |ps|..4 + 8 * n] + Data(ps) + init[4 + 8 * n + |Data(ps)|..]
  }

  lemma LayoutComplete(init: Bytes, ps: seq<Pair>)
    requires Fits(ps) && EncodedSize(ps) <= |init|
    ensures SizesFit(ps) && IsInt32(|ps|)
    ensures Layout(init, |ps|, ps) == Encode(ps) + init[EncodedSize(ps)..]
  {
    FitsSizes(ps);
    assert init[4 + 8 * |ps|..4 + 8 * |ps|] == [];
  }

  /** One entry written: its two lengths at s, its bytes and terminators at d. */
  function Written(b: Bytes, s: nat, d: nat, p: Pair): Bytes
    requires PairFits(p) && s + 8 <= |b| && d + |PairBytes(p)| <= |b|
  {
    Patch(Patch(b, s, Cells(p)), d, PairBytes(p))
  }

  lemma SnocParts(ps: seq<Pair>, p: Pair)
    ensures Data(ps + [p]) == Data(ps) + PairBytes(p)
    ensures SizesFit(ps + [p]) <==> SizesFit(ps) && PairFits(p)
    ensures SizesFit(ps + [p]) ==> SizeTable(ps + [p]) == SizeTable(ps) + Cells(p)
  {
    assert (ps + [p])[..|ps + [p]| - 1] == ps;
    assert SizesFit(ps + [p]) ==> forall q :: q in ps ==> q in ps + [p];
    assert p in ps + [p];
  }

  /** Writing the next entry turns one layout into the next, and spares every earlier entry. */
  lemma LayoutSnoc(init: Bytes, n: nat, ps: seq<Pair>, p: Pair)
    requires IsInt32(n) && SizesFit(ps) && PairFits(p) && |ps| < n
    requires 4 + 8 * n + |Data(ps)| + |PairBytes(p)| <= |init|
    ensures SizesFit(ps + [p]) && |Data(ps + [p])| == |Data(ps)| + |PairBytes(p)|
    ensures Written(Layout(init, n, ps), 4 + 8 * |ps|, 4 + 8 * n + |Data(ps)|, p) == Layout(init, n, ps + [p])
  {
    hide Le32, SizeTable, Data, PairBytes, Cells, Patch;
    SnocParts(ps, p);
    var head := Le32(n) + SizeTable(ps);
    var s := 4 + 8 * |ps|;
    var d := 4 + 8 * n + |Data(ps)|;
    LayoutPatched(head, init[s..4 + 8 * n], Data(ps), init[d..], Cells(p), PairBytes(p));
    SliceStep(init, s, 4 + 8 * n, 8);
    SliceStep(init, d, |init|, |PairBytes(p)|);
    assert Le32(n) + SizeTable(ps + [p]) == head + Cells(p);
  }

  lemma SliceStep(b: Bytes, i: nat, j: nat, k: nat)
    requires i + k <= j <= |b|
    ensures b[i..j][k..] == b[i + k..j]
    ensures b[i..][k..] == b[i + k..]
  {
  }

  lemma LayoutPatched(head: Bytes, gap: Bytes, data: Bytes, rest: Bytes, cells: Bytes, bytes: Bytes)
    requires |cells| <= |gap| && |bytes| <= |rest|
    ensures Patch(Patch(head + gap + data + rest, |head|, cells), |head + gap + data|, bytes)
         == head + cells + gap[|cells|..] + (data + bytes) + rest[|bytes|..]
  {
    hide Patch;
    var b1 := Patch(head + gap + data + rest, |head|, cells);
    assert head + gap + data + rest == head + gap + (data + rest);
    PatchMiddle(head, gap, cells, data + rest);
    var front := head + cells + gap[|cells|..] + data;
    assert b1 == front + rest + [];
    PatchMiddle(front, rest, bytes, []);
    assert Patch(b1, |front|, bytes) == front + bytes + rest[|bytes|..] + [];
  }

  // ------------------------------------------------------------------------------------
  // What a buffer holds, whoever wrote it

  function Int32At(b: Bytes, at: nat): int
    requires at + 4 <= |b|
  {
    FromLe32(b[at..at + 4])
  }

  /** Where the key of the i-th pair starts. */
  function KeyAt(ps: seq<Pair>, i: nat): nat
    requires i <= |ps|
  {
    4 + 8 * |ps| + |Data(ps[..i])|
  }

  predicate HoldsPair(b: Bytes, ps: seq<Pair>, i: nat)
    requires i < |ps|
  {
    var p := ps[i];
    var k := KeyAt(ps, i);
    && 4 + 8 * |ps| <= |b| && k + |p.key| + 1 + |p.value| <= |b|
    && Int32At(b, 4 + 8 * i) == |p.key| && Int32At(b, 8 + 8 * i) == |p.value|
    && b[k..k + |p.key|] == p.key
    && b[k + |p.key| + 1..k + |p.key| + 1 + |p.value|] == p.value
  }

  /** A buffer that begins with the map of ps. The terminators are not looked at. A table of 2^30
      or more entries has no place in a 32-bit address space. */
  ghost predicate Holds(b: Bytes, ps: seq<Pair>) {
    4 <= |b| && Int32At(b, 0) == |ps| && IsInt32(2 * |ps|) && forall i :: 0 <= i < |ps| ==> HoldsPair(b, ps, i)
  }

  lemma DataNext(ps: seq<Pair>, i: nat)
    requires i < |ps|
    ensures KeyAt(ps, i + 1) == KeyAt(ps, i) + |ps[i].key| + 1 + |ps[i].value| + 1
  {
    assert ps[..i + 1] == ps[..i] + [ps[i]];
    SnocParts(ps[..i], ps[i]);
  }

  /** A buffer holds at most one list of pairs. */
  lemma {:induction false} HoldsOne(b: Bytes, ps: seq<Pair>, qs: seq<Pair>, i: nat)
    requires Holds(b, ps) && Holds(b, qs) && i <= |ps|
    ensures |ps| == |qs| && ps[..i] == qs[..i]
  {
    if i > 0 {
      HoldsOne(b, ps, qs, i - 1);
      assert HoldsPair(b, ps, i - 1) && HoldsPair(b, qs, i - 1);
      assert KeyAt(ps, i - 1) == KeyAt(qs, i - 1);
      assert ps[i - 1] == qs[i - 1];
    }
  }

  lemma HoldsUnique(b: Bytes, ps: seq<Pair>, qs: seq<Pair>)
    requires Holds(b, ps) && Holds(b, qs)
    ensures ps == qs
  {
    HoldsOne(b, ps, qs, |ps|);
    assert ps[..|ps|] == ps && qs[..|ps|] == qs;
  }

  // ------------------------------------------------------------------------------------
  // Which buffers hold a list

  /** The i-th cell of the table, keys and values taking turns. */
  function CellAt(b: Bytes, i: nat): int
    requires 8 + 4 * i <= |b|
  {
    Int32At(b, 4 + 4 * i)
  }

  /** What the first k entries take according to the table, terminators included. */
  function TextSize(b: Bytes, k: nat): int
    requires 4 + 8 * k <= |b|
  {
    if k == 0 then 0 else TextSize(b, k - 1) + CellAt(b, 2 * k - 2) + 1 + CellAt(b, 2 * k - 1) + 1
  }

  /** Count, lengths and size go together: the count is not negative, the table is inside the buffer,
      no length is negative, and all the text is inside, but for the last terminator. */
  predicate MapFits(b: Bytes) {
    && 4 <= |b|
    && var n := Int32At(b, 0);
       && 0 <= n && IsInt32(2 * n) && 4 + 8 * n <= |b|
       && (forall i :: 0 <= i < 2 * n ==> CellAt(b, i) >= 0)
       && (n > 0 ==> 4 + 8 * n + TextSize(b, n) - 1 <= |b|)
  }

  lemma {:induction false} TextGrows(b: Bytes, j: nat, k: nat)
    requires j <= k && 4 + 8 * k <= |b| && forall i :: 0 <= i < 2 * k ==> CellAt(b, i) >= 0
    ensures 0 <= TextSize(b, j) <= TextSize(b, k)
    ensures j < k ==> TextSize(b, j) + CellAt(b, 2 * j) + 1 + CellAt(b, 2 * j + 1) + 1 <= TextSize(b, k)
  {
    if j < k {
      TextGrows(b, j, k - 1);
    } else if k > 0 {
      TextGrows(b, k - 1, k - 1);
    }
  }

  lemma EntryFits(b: Bytes, i: nat)
    requires MapFits(b) && i < Int32At(b, 0)
    ensures CellAt(b, 2 * i) >= 0 && CellAt(b, 2 * i + 1) >= 0 && TextSize(b, i) >= 0
    ensures 4 + 8 * Int32At(b, 0) + TextSize(b, i) + CellAt(b, 2 * i) + 1 + CellAt(b, 2 * i + 1) <= |b|
  {
    hide Int32At, TextSize, CellAt;
    TextGrows(b, i, Int32At(b, 0));
  }

  /** The i-th pair, as the table divides the text. */
  function PairIn(b: Bytes, i: nat): (p: Pair)
    requires MapFits(b) && i < Int32At(b, 0)
    ensures |p.key| == CellAt(b, 2 * i) && |p.value| == CellAt(b, 2 * i + 1)
  {
    hide MapFits, Int32At, TextSize, CellAt;
    EntryFits(b, i);
    var at := 4 + 8 * Int32At(b, 0) + TextSize(b, i);
    var keyLen, valLen := CellAt(b, 2 * i), CellAt(b, 2 * i + 1);
    Pair(b[at..at + keyLen], b[at + keyLen + 1..at + keyLen + 1 + valLen])
  }

  /** The first k pairs. */
  function PairsIn(b: Bytes, k: nat): (ps: seq<Pair>)
    requires MapFits(b) && k <= Int32At(b, 0)
    ensures |ps| == k
  {
    if k == 0 then [] else PairsIn(b, k - 1) + [PairIn(b, k - 1)]
  }

  lemma FitsTable(b: Bytes, k: nat)
    requires MapFits(b) && k <= Int32At(b, 0)
    ensures 4 + 8 * k <= |b|
  {
  }

  lemma {:induction false} PairsInSize(b: Bytes, k: nat)
    requires MapFits(b) && k <= Int32At(b, 0) && 4 + 8 * k <= |b|
    ensures |Data(PairsIn(b, k))| == TextSize(b, k)
  {
    hide MapFits, Int32At, CellAt, Data, PairIn;
    if k == 0 {
      NoData();
    } else {
      PairsInSize(b, k - 1);
      SnocParts(PairsIn(b, k - 1), PairIn(b, k - 1));
    }
  }

  lemma NoData()
    ensures Data([]) == []
  {
  }

  lemma {:induction false} PairsInPrefix(b: Bytes, j: nat, k: nat)
    requires MapFits(b) && j <= k <= Int32At(b, 0)
    ensures PairsIn(b, k)[..j] == PairsIn(b, j)
  {
    hide MapFits, Int32At, TextSize, CellAt, PairIn;
    if j < k {
      PairsInPrefix(b, j, k - 1);
    }
  }

  lemma FitsHolds(b: Bytes)
    requires MapFits(b)
    ensures Holds(b, PairsIn(b, Int32At(b, 0)))
  {
    hide Data, Int32At, TextSize;
    var n := Int32At(b, 0);
    var ps := PairsIn(b, n);
    forall i | 0 <= i < n
      ensures HoldsPair(b, ps, i)
    {
      PairsInPrefix(b, i, n);
      PairsInPrefix(b, i + 1, n);
      EntryFits(b, i);
      FitsTable(b, i);
      PairsInSize(b, i);
      assert ps[i] == PairsIn(b, i + 1)[i] == PairIn(b, i);
    }
  }

  lemma {:induction false} HeldSizes(b: Bytes, ps: seq<Pair>, k: nat)
    requires Holds(b, ps) && k <= |ps| && 4 + 8 * |ps| <= |b|
    ensures TextSize(b, k) == |Data(ps[..k])|
    ensures forall i :: 0 <= i < 2 * k ==> CellAt(b, i) >= 0
  {
    hide Int32At;
    if k > 0 {
      HeldSizes(b, ps, k - 1);
      assert HoldsPair(b, ps, k - 1);
      DataNext(ps, k - 1);
    } else {
      assert ps[..0] == [];
    }
  }

  lemma HoldsFits(b: Bytes, ps: seq<Pair>)
    requires Holds(b, ps)
    ensures MapFits(b)
  {
    hide Int32At;
    if ps != [] {
      assert HoldsPair(b, ps, |ps| - 1);
      HeldSizes(b, ps, |ps|);
      DataNext(ps, |ps| - 1);
    }
  }

  /** A buffer holds a list of pairs, whoever wrote it, exactly when its numbers go together. */
  lemma MapFitsExactlyWhen(b: Bytes)
    ensures MapFits(b) <==> exists ps :: Holds(b, ps)
  {
    hide Holds, MapFits;
    if MapFits(b) {
      FitsHolds(b);
    }
    forall ps | Holds(b, ps)
      ensures MapFits(b)
    {
      HoldsFits(b, ps);
    }
  }

  // ------------------------------------------------------------------------------------
  // Walking any buffer

  /** Where the text starts according to the count, which is an int32_t product away. */
  function TextAt(b: Bytes): int
    requires 4 <= |b|
  {
    4 + 4 * Wrap32(2 * Int32At(b, 0))
  }

  /** The j-th pair lies in b, where the pairs before it say. */
  ghost predicate WalksOver(b: Bytes, ps: seq<Pair>, j: nat)
    requires 4 <= |b| && j < |ps|
  {
    var p := ps[j];
    var k := TextAt(b) + |Data(ps[..j])|;
    && 12 + 8 * j <= |b| && CellAt(b, 2 * j) == |p.key| && CellAt(b, 2 * j + 1) == |p.value|
    && 0 <= k && k + |p.key| + 1 + |p.value| <= |b|
    && b[k..k + |p.key|] == p.key
    && b[k + |p.key| + 1..k + |p.key| + 1 + |p.value|] == p.value
  }

  /** ps are the pairs that a walk has come over so far. */
  ghost predicate Walked(b: Bytes, ps: seq<Pair>) {
    && 4 <= |b| && (0 <= Int32At(b, 0) ==> |ps| <= Int32At(b, 0))
    && forall j :: 0 <= j < |ps| ==> WalksOver(b, ps, j)
  }

  lemma NothingWalked(b: Bytes)
    requires 4 <= |b|
    ensures Walked(b, []) && Data([]) == []
  {
  }

  /** If the buffer holds a list, the walk is on its way through it. */
  lemma {:induction false} WalkedPrefix(b: Bytes, ps: seq<Pair>, qs: seq<Pair>, i: nat)
    requires Walked(b, ps) && Holds(b, qs) && i <= |ps|
    ensures |ps| <= |qs| && ps[..i] == qs[..i]
  {
    hide Int32At, Data;
    if i > 0 {
      WalkedPrefix(b, ps, qs, i - 1);
      SamePair(b, ps, qs, i - 1);
      assert ps[..i] == ps[..i - 1] + [ps[i - 1]] && qs[..i] == qs[..i - 1] + [qs[i - 1]];
    }
  }

  lemma SamePair(b: Bytes, ps: seq<Pair>, qs: seq<Pair>, i: nat)
    requires Walked(b, ps) && Holds(b, qs) && i < |ps| <= |qs| && ps[..i] == qs[..i]
    ensures ps[i] == qs[i]
  {
    hide Int32At, Data;
    assert WalksOver(b, ps, i) && HoldsPair(b, qs, i);
  }

  /** A walk that has come over as many pairs as are counted has read the list that is held. */
  lemma WalkedAll(b: Bytes, ps: seq<Pair>)
    requires Walked(b, ps) && |ps| == Int32At(b, 0) && |b| <= UINT32
    ensures Holds(b, ps)
  {
    hide Int32At, Data;
    if ps != [] {
      assert WalksOver(b, ps, |ps| - 1);
    }
    forall j | 0 <= j < |ps|
      ensures HoldsPair(b, ps, j)
    {
      assert WalksOver(b, ps, j);
    }
  }

  /** The next pair of a list that is held is there to walk over. */
  lemma HeldNext(b: Bytes, ps: seq<Pair>, qs: seq<Pair>)
    requires Walked(b, ps) && Holds(b, qs) && |ps| != Int32At(b, 0)
    ensures ps == qs[..|ps|] && |ps| < |qs| && |qs| == Int32At(b, 0)
    ensures TextAt(b) + |Data(ps)| == KeyAt(qs, |ps|) && HoldsPair(b, qs, |ps|)
    ensures WalksOver(b, qs[..|ps| + 1], |ps|)
  {
    hide Int32At, Data, Walked, HoldsPair, WalksOver, KeyAt, TextAt;
    WalkedPrefix(b, ps, qs, |ps|);
    WalkedShort(b, ps);
    assert ps == qs[..|ps|];
    HeldWalks(b, qs, |ps|);
  }

  lemma WalkedShort(b: Bytes, ps: seq<Pair>)
    requires Walked(b, ps)
    ensures 4 <= |b| && (0 <= Int32At(b, 0) ==> |ps| <= Int32At(b, 0))
  {
  }

  lemma HeldWalks(b: Bytes, qs: seq<Pair>, i: nat)
    requires Holds(b, qs) && i < |qs|
    ensures HoldsPair(b, qs, i) && TextAt(b) + |Data(qs[..i])| == KeyAt(qs, i)
    ensures WalksOver(b, qs[..i + 1], i)
  {
    hide Int32At, Data;
    assert HoldsPair(b, qs, i);
    assert qs[..i + 1][..i] == qs[..i] && qs[..i + 1][i] == qs[i];
  }

  lemma WalkedSnoc(b: Bytes, ps: seq<Pair>, p: Pair)
    requires Walked(b, ps) && |ps| != Int32At(b, 0) && WalksOver(b, ps + [p], |ps|)
    ensures Walked(b, ps + [p])
    ensures |Data(ps + [p])| == |Data(ps)| + |p.key| + 1 + |p.value| + 1
  {
    hide Int32At, Data;
    SnocParts(ps, p);
    forall j | 0 <= j < |ps|
      ensures WalksOver(b, ps + [p], j)
    {
      assert WalksOver(b, ps, j);
      assert (ps + [p])[..j] == ps[..j];
    }
  }

  // ------------------------------------------------------------------------------------
  // What an encoding holds

  lemma {:induction false} TableAt(ps: seq<Pair>, i: nat)
    requires SizesFit(ps) && i < |ps|
    ensures SizeTable(ps)[8 * i..8 * i + 8] == Cells(ps[i])
  {
    var init := ps[..|ps| - 1];
    if i < |init| {
      TableAt(init, i);
      assert SizeTable(ps)[8 * i..8 * i + 8] == SizeTable(init)[8 * i..8 * i + 8];
    }
  }

  lemma {:induction false} DataAt(ps: seq<Pair>, i: nat)
    requires i < |ps|
    ensures |Data(ps[..i])| + |PairBytes(ps[i])| <= |Data(ps)|
    ensures Data(ps)[|Data(ps[..i])|..|Data(ps[..i])| + |PairBytes(ps[i])|] == PairBytes(ps[i])
  {
    var init := ps[..|ps| - 1];
    if i < |init| {
      assert init[..i] == ps[..i];
      DataAt(init, i);
    } else {
      assert init == ps[..i];
    }
  }

  lemma CellsRead(b: Bytes, at: nat, p: Pair)
    requires PairFits(p) && at + 8 <= |b| && b[at..at + 8] == Cells(p)
    ensures Int32At(b, at) == |p.key| && Int32At(b, at + 4) == |p.value|
  {
    assert b[at..at + 4] == b[at..at + 8][..4] == Le32(|p.key|);
    assert b[at + 4..at + 8] == b[at..at + 8][4..] == Le32(|p.value|);
    Le32RoundTrip(|p.key|);
    Le32RoundTrip(|p.value|);
  }

  lemma PairRead(b: Bytes, at: nat, p: Pair)
    requires at + |PairBytes(p)| <= |b| && b[at..at + |PairBytes(p)|] == PairBytes(p)
    ensures b[at..at + |p.key|] == p.key
    ensures b[at + |p.key| + 1..at + |p.key| + 1 + |p.value|] == p.value
  {
    var c := b[at..at + |PairBytes(p)|];
    var none: Bytes := [];
    assert c == none + p.key + ([0] + p.value + [0]);
    SliceMiddle(none, p.key, [0] + p.value + [0], 0, |p.key|);
    SliceOfSlice(b, at, |c|, 0, |p.key|);
    assert c == (p.key + [0]) + p.value + [0];
    SliceMiddle(p.key + [0], p.value, [0], 0, |p.value|);
    SliceOfSlice(b, at, |c|, |p.key| + 1, |p.key| + 1 + |p.value|);
  }

  lemma SliceOfSlice(b: Bytes, at: nat, n: nat, i: nat, j: nat)
    requires at + n <= |b| && i <= j <= n
    ensures b[at..at + n][i..j] == b[at + i..at + j]
  {
    var s, t := b[at..at + n][i..j], b[at + i..at + j];
    assert |s| == |t|;
    forall k | 0 <= k < |s|
      ensures s[k] == t[k]
    {
      assert s[k] == b[at..at + n][i + k] == b[at + i + k];
    }
  }

  /** What was encoded is what the buffer holds. */
  lemma EncodedHolds(ps: seq<Pair>, tail: Bytes)
    requires Fits(ps)
    ensures Holds(Encode(ps) + tail, ps)
  {
    FitsSizes(ps);
    var b := Encode(ps) + tail;
    Le32RoundTrip(|ps|);
    assert b[0..4] == Le32(|ps|);
    forall i | 0 <= i < |ps|
      ensures HoldsPair(b, ps, i)
    {
      EncodedPair(ps, tail, i);
    }
  }

  /** Each string of an encoding is followed by a NUL. */
  lemma EncodedTerminates(ps: seq<Pair>, i: nat)
    requires Fits(ps) && i < |ps|
    ensures var k := KeyAt(ps, i); var v := k + |ps[i].key| + 1;
      && v + |ps[i].value| < |Encode(ps)|
      && Encode(ps)[k + |ps[i].key|] == 0 && Encode(ps)[v + |ps[i].value|] == 0
  {
    hide Le32, SizeTable, Data;
    FitsSizes(ps);
    DataAt(ps, i);
    var d, p := |Data(ps[..i])|, ps[i];
    var c := PairBytes(p);
    assert Data(ps)[d..d + |c|] == c;
    assert c[|p.key|] == 0 && c[|c| - 1] == 0;
    assert Data(ps)[d + |p.key|] == c[|p.key|] && Data(ps)[d + |c| - 1] == c[|c| - 1];
  }

  lemma SliceMiddle(a: Bytes, b: Bytes, c: Bytes, i: nat, j: nat)
    requires i <= j <= |b|
    ensures (a + b + c)[|a| + i..|a| + j] == b[i..j]
  {
  }

  lemma EncodedPair(ps: seq<Pair>, tail: Bytes, i: nat)
    requires Fits(ps) && SizesFit(ps) && i < |ps|
    ensures HoldsPair(Encode(ps) + tail, ps, i)
  {
    hide Le32, SizeTable, Data, PairBytes, Cells, Int32At;
    var b := Encode(ps) + tail;
    var count, table, data := Le32(|ps|), SizeTable(ps), Data(ps);
    var d := |Data(ps[..i])|;
    TableAt(ps, i);
    DataAt(ps, i);
    assert b == count + table + (data + tail);
    SliceMiddle(count, table, data + tail, 8 * i, 8 * i + 8);
    CellsRead(b, 4 + 8 * i, ps[i]);
    assert b == (count + table) + data + tail;
    SliceMiddle(count + table, data, tail, d, d + |PairBytes(ps[i])|);
    PairRead(b, KeyAt(ps, i), ps[i]);
  }
}
