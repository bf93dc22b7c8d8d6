/**
 From the header map a guest passes to proxy_http_call to the request that is sent:
 ngx_http_wasm_call_get decodes the map into pseudo headers and a table of headers, and
 send_http_call in Lua scans the table and groups repeated headers.
 */
module Callout {
  import opened Common
  import opened HeaderMap
  import opened MapIterator
  import opened Serializers
  import opened ResponseHeaders

  // ------------------------------------------------------------------------------------
  // Header names

  /** ngx_strncasecmp(a, b, n) == 0 for strings of n bytes: it stops at a common NUL. */
  predicate SameNoCase(a: Bytes, b: Bytes)
    requires |a| == |b|
  {
    a == [] || (LowByte(a[0]) == LowByte(b[0]) && (a[0] == 0 || SameNoCase(a[1..], b[1..])))
  }

  /** On a name without NULs it is plain equality of the lower-cased strings. */
  lemma {:induction false} SameNoCaseIsLower(a: Bytes, b: Bytes)
    requires |a| == |b| && 0 !in b
    ensures SameNoCase(a, b) <==> Lower(a) == Lower(b)
  {
    if a != [] {
      SameNoCaseIsLower(a[1..], b[1..]);
      assert Lower(a)[0] == LowByte(a[0]) && Lower(b)[0] == LowByte(b[0]);
      assert Lower(a)[1..] == Lower(a[1..]) && Lower(b)[1..] == Lower(b[1..]);
      assert Lower(a) == [Lower(a)[0]] + Lower(a)[1..] && Lower(b) == [Lower(b)[0]] + Lower(b)[1..];
      assert b[0] in b;
    }
  }

  datatype Kind = Empty | Path | Method | Scheme | Authority | Plain

  predicate Named(key: Bytes, name: Bytes) {
    |key| == |name| && SameNoCase(key, name)
  }

  /** What an entry of the map is. */
  function Classify(key: Bytes): Kind {
    if |key| == 0 then Empty
    else if key[0] != 58 then Plain
    else if Named(key, Ascii(":path")) then Path
    else if Named(key, Ascii(":method")) then Method
    else if Named(key, Ascii(":scheme")) then Scheme
    else if Named(key, Ascii(":authority")) then Authority
    else Plain
  }

  // ------------------------------------------------------------------------------------
  // What the decoder should produce

  /** The header an entry becomes, if any; :authority is renamed. */
  function EmittedOf(p: Pair): seq<Pair> {
    match Classify(p.key)
    case Plain => [p]
    case Authority => [Pair(Ascii("host"), p.value)]
    case _ => []
  }

  /** The entries that become headers, in order. */
  function Emitted(ps: seq<Pair>): seq<Pair> {
    if ps == [] then [] else Emitted(ps[..|ps| - 1]) + EmittedOf(ps[|ps| - 1])
  }

  /** The value of the last entry of a kind, or the given one. */
  function LastOf(ps: seq<Pair>, k: Kind, otherwise: Bytes): Bytes {
    if ps == [] then otherwise
    else if Classify(ps[|ps| - 1].key) == k then ps[|ps| - 1].value
    else LastOf(ps[..|ps| - 1], k, otherwise)
  }

  function CountOf(ps: seq<Pair>, k: Kind): nat {
    if ps == [] then 0
    else CountOf(ps[..|ps| - 1], k) + if Classify(ps[|ps| - 1].key) == k then 1 else 0
  }

  /** No entry gets lost or is counted twice, so the headers and their terminator fit into a
      table of one more slot than the map has entries. */
  lemma {:induction false} EveryEntryGoesSomewhere(ps: seq<Pair>)
    ensures |Emitted(ps)| + CountOf(ps, Path) + CountOf(ps, Method) + CountOf(ps, Scheme) + CountOf(ps, Empty) == |ps|
    ensures |Emitted(ps)| + 1 <= |ps| + 1
  {
    if ps != [] {
      EveryEntryGoesSomewhere(ps[..|ps| - 1]);
    }
  }

  lemma EmittedSnoc(ps: seq<Pair>, p: Pair)
    ensures Emitted(ps + [p]) == Emitted(ps) + EmittedOf(p)
  {
    assert (ps + [p])[..|ps + [p]| - 1] == ps;
  }

  lemma {:induction false} EmittedHaveKeys(ps: seq<Pair>)
    ensures forall p :: p in Emitted(ps) ==> p.key != []
  {
    if ps != [] {
      EmittedHaveKeys(ps[..|ps| - 1]);
    }
  }

  lemma {:induction false} PresentDecides(ps: seq<Pair>, k: Kind, o1: Bytes, o2: Bytes)
    ensures CountOf(ps, k) > 0 ==> LastOf(ps, k, o1) == LastOf(ps, k, o2)
    ensures CountOf(ps, k) == 0 ==> LastOf(ps, k, o1) == o1
  {
    if ps != [] {
      PresentDecides(ps[..|ps| - 1], k, o1, o2);
    }
  }

  /** A pseudo header that is there decides its cell; one that is not leaves what an earlier
      callout, of whatever request, put into it. */
  lemma CellIsFreshIffPresent(ps: seq<Pair>, k: Kind)
    ensures (forall o1, o2 :: LastOf(ps, k, o1) == LastOf(ps, k, o2)) <==> CountOf(ps, k) > 0
  {
    if CountOf(ps, k) > 0 {
      forall o1, o2
        ensures LastOf(ps, k, o1) == LastOf(ps, k, o2)
      {
        PresentDecides(ps, k, o1, o2);
      }
    } else {
      PresentDecides(ps, k, [0], []);
      PresentDecides(ps, k, [], []);
      assert LastOf(ps, k, [0]) != LastOf(ps, k, []);
    }
  }

  // ------------------------------------------------------------------------------------
  // What is read of a map

  /** A string of C: a pointer into some memory, and a length that may be anything. */
  datatype Str = Str(mem: Bytes, at: int, len: int)

  /** ffi_str: the bytes, if all of them are inside the memory. A negative length is an error of Lua;
      for no bytes the pointer is not followed. */
  function Text(s: Str): (t: Option<Bytes>)
    ensures t.Some? ==> |t.value| == s.len
  {
    if s.len == 0 then Some([])
    else if 0 < s.len && 0 <= s.at && s.at + s.len <= |s.mem| then Some(s.mem[s.at..s.at + s.len])
    else None
  }

  function TextOr(s: Str): Bytes {
    if Text(s).Some? then Text(s).value else []
  }

  /** The key of the j-th entry, where the lengths before it lead to, */
  function KeyStr(b: Bytes, j: nat): Str
    requires 12 + 8 * j <= |b|
  {
    Str(b, TextAt(b) + TextSize(b, j), CellAt(b, 2 * j))
  }

  /** and its value. */
  function ValueStr(b: Bytes, j: nat): Str
    requires 12 + 8 * j <= |b|
  {
    Str(b, KeyStr(b, j).at + KeyStr(b, j).len + 1, CellAt(b, 2 * j + 1))
  }

  predicate TableFits(b: Bytes) {
    4 <= |b| <= UINT32 && 0 <= Int32At(b, 0) && 4 + 8 * Int32At(b, 0) <= |b|
  }

  /** The kind of the j-th entry. */
  function KindAt(b: Bytes, j: nat): Kind
    requires 12 + 8 * j <= |b|
  {
    Classify(TextOr(KeyStr(b, j)))
  }

  /** The value of the j-th entry is made use of: it becomes a header, or it is the last one given for its
      pseudo header. */
  ghost predicate Used(b: Bytes, j: nat)
    requires TableFits(b) && j < Int32At(b, 0)
  {
    match KindAt(b, j)
    case Empty => false
    case Plain => true
    case Authority => true
    case _ => forall i: nat :: j < i < Int32At(b, 0) ==> KindAt(b, i) != KindAt(b, j)
  }

  /** All that is read is inside the map: the lengths of all entries, all keys, and the values that are
      used. */
  ghost predicate ReadsFit(b: Bytes) {
    && TableFits(b)
    && (forall j: nat :: j < Int32At(b, 0) ==> Text(KeyStr(b, j)).Some?)
    && (forall j: nat :: j < Int32At(b, 0) && Used(b, j) ==> Text(ValueStr(b, j)).Some?)
  }

  ghost predicate Absent(b: Bytes, k: Kind)
    requires TableFits(b)
  {
    forall j: nat :: j < Int32At(b, 0) ==> KindAt(b, j) != k
  }

  /** The first k entries. */
  function Shown(b: Bytes, k: nat): (ps: seq<Pair>)
    requires 4 + 8 * k <= |b|
    ensures |ps| == k
  {
    if k == 0 then [] else Shown(b, k - 1) + [Pair(TextOr(KeyStr(b, k - 1)), TextOr(ValueStr(b, k - 1)))]
  }

  lemma HeldStrs(b: Bytes, ps: seq<Pair>, j: nat)
    requires Holds(b, ps) && |b| <= UINT32 && j < |ps|
    ensures 12 + 8 * j <= |b|
    ensures Text(KeyStr(b, j)) == Some(ps[j].key) && Text(ValueStr(b, j)) == Some(ps[j].value)
  {
    hide Int32At, Data;
    assert HoldsPair(b, ps, j);
    HeldSizes(b, ps, j);
  }

  lemma {:induction false} ShownOfHeld(b: Bytes, ps: seq<Pair>, k: nat)
    requires Holds(b, ps) && |b| <= UINT32 && k <= |ps| && 4 + 8 * k <= |b|
    ensures Shown(b, k) == ps[..k]
  {
    hide Holds, KeyStr, ValueStr, Text;
    if k > 0 {
      ShownOfHeld(b, ps, k - 1);
      HeldStrs(b, ps, k - 1);
      assert ps[..k] == ps[..k - 1] + [ps[k - 1]];
    }
  }

  lemma HeldTable(b: Bytes, ps: seq<Pair>)
    requires Holds(b, ps) && |b| <= UINT32
    ensures TableFits(b) && Int32At(b, 0) == |ps|
  {
    hide Int32At;
    if ps != [] {
      assert HoldsPair(b, ps, |ps| - 1);
    }
  }

  /** In a buffer that holds a list everything can be read, and the entries are that list. */
  lemma HeldIsRead(b: Bytes, ps: seq<Pair>)
    requires Holds(b, ps) && |b| <= UINT32
    ensures ReadsFit(b) && Shown(b, Int32At(b, 0)) == ps
  {
    hide Holds, KeyStr, ValueStr, Text, Used;
    HeldTable(b, ps);
    forall j: nat | j < |ps|
      ensures Text(KeyStr(b, j)).Some? && Text(ValueStr(b, j)).Some?
    {
      HeldStrs(b, ps, j);
    }
    ShownOfHeld(b, ps, |ps|);
    assert ps[..|ps|] == ps;
  }

  lemma CellsOf(b: Bytes, at: nat, v: int)
    requires at + 4 <= |b| && IsInt32(v) && b[at..at + 4] == Le32(v)
    ensures Int32At(b, at) == v
  {
    Le32RoundTrip(v);
  }

  /** The converse fails: the value of an entry with an empty key is not read, so its length may be
      anything, */
  lemma EmptyKeyNeedsNoValue()
    ensures var b := Le32(1) + Le32(0) + Le32(1000) + [0];
      !MapFits(b) && ReadsFit(b)
  {
    hide Int32At, TextAt, Le32;
    var b := Le32(1) + Le32(0) + Le32(1000) + [0];
    CellsOf(b, 0, 1);
    CellsOf(b, 4, 0);
    CellsOf(b, 8, 1000);
    assert TextSize(b, 1) == TextSize(b, 0) + 1002;
  }

  /** and so may that of a pseudo header that is given again. */
  lemma ReplacedNeedsNoValue()
    ensures var b := Le32(2) + Le32(5) + Le32(-7) + Le32(5) + Le32(0) + Ascii(":path") + [0, 0];
      !MapFits(b) && ReadsFit(b)
  {
    hide MapFits, ReadsFit, Le32, Ascii, Int32At;
    var b := Le32(2) + Le32(5) + Le32(-7) + Le32(5) + Le32(0) + Ascii(":path") + [0, 0];
    CellsOf(b, 0, 2);
    CellsOf(b, 4, 5);
    CellsOf(b, 8, -7);
    CellsOf(b, 12, 5);
    CellsOf(b, 16, 0);
    PathTwice(b);
  }

  lemma PathTwice(b: Bytes)
    requires |b| == 27 && Int32At(b, 0) == 2 && b[20..25] == Ascii(":path")
    requires Int32At(b, 4) == 5 && Int32At(b, 8) == -7 && Int32At(b, 12) == 5 && Int32At(b, 16) == 0
    ensures !MapFits(b) && ReadsFit(b)
  {
    hide Int32At, Ascii, Classify;
    PathIsPath();
    assert CellAt(b, 1) == -7;
    assert TextSize(b, 1) == TextSize(b, 0) == 0;
    assert KindAt(b, 0) == Path && KindAt(b, 1) == Path;
  }

  lemma PathIsPath()
    ensures Classify(Ascii(":path")) == Path
  {
    Reflexive(Ascii(":path"));
  }

  lemma {:induction false} Reflexive(a: Bytes)
    ensures SameNoCase(a, a)
  {
    if a != [] {
      Reflexive(a[1..]);
    }
  }

  // ------------------------------------------------------------------------------------
  // What ngx_http_wasm_call_get looks at

  const PSEUDO: seq<(string, Kind)> :=
    [(":path", Path), (":method", Method), (":scheme", Scheme), (":authority", Authority)]

  /** ngx_strncasecmp(mem + at, name, |name|) == 0, or None when it leaves the memory. */
  function Compare(mem: Bytes, at: int, name: Bytes): Option<bool>
    decreases |name|
  {
    if name == [] then Some(true)
    else if at < 0 || at >= |mem| then None
    else if LowByte(mem[at]) != LowByte(name[0]) then Some(false)
    else if mem[at] == 0 then Some(true)
    else Compare(mem, at + 1, name[1..])
  }

  lemma {:induction false} CompareIsSame(mem: Bytes, at: int, name: Bytes)
    requires 0 !in name
    ensures 0 <= at && at + |name| <= |mem| ==>
              Compare(mem, at, name) == Some(SameNoCase(mem[at..at + |name|], name))
    ensures Compare(mem, at, name) == Some(true) ==> name == [] || (0 <= at && at + |name| <= |mem|)
    decreases |name|
  {
    if name != [] {
      assert name[0] in name && forall c :: c in name[1..] ==> c in name;
      CompareIsSame(mem, at + 1, name[1..]);
      if 0 <= at && at + |name| <= |mem| {
        var t := mem[at..at + |name|];
        assert t[1..] == mem[at + 1..at + 1 + |name[1..]|];
      }
    }
  }

  /** The scan of the table of pseudo headers from its i-th row on. */
  function KindFrom(s: Str, i: nat): Option<Kind>
    requires i <= |PSEUDO|
    decreases |PSEUDO| - i
  {
    if i == |PSEUDO| then Some(Plain)
    else if s.len != |PSEUDO[i].0| then KindFrom(s, i + 1)
    else
      match Compare(s.mem, s.at, Ascii(PSEUDO[i].0))
      case None => None
      case Some(same) => if same then Some(PSEUDO[i].1) else KindFrom(s, i + 1)
  }

  /** The kind of an entry, judged by its key in memory; None when the judgement leaves the memory. */
  function KindOf(s: Str): Option<Kind> {
    if s.len == 0 then Some(Empty)
    else if s.at < 0 || s.at >= |s.mem| then None
    else if s.mem[s.at] == 58 then KindFrom(s, 0)
    else Some(Plain)
  }

  lemma NamesHaveNoNul()
    ensures 0 !in Ascii(":path") && 0 !in Ascii(":method") && 0 !in Ascii(":scheme") && 0 !in Ascii(":authority")
  {
  }

  /** A key that is inside is judged by its bytes; one that is not is taken for plain or leaves the
      memory. */
  lemma KindIsClass(s: Str)
    ensures Text(s).Some? ==> KindOf(s) == Some(Classify(Text(s).value))
    ensures Text(s).None? ==> KindOf(s) == None || KindOf(s) == Some(Plain)
  {
    hide Ascii, Compare, SameNoCase;
    NamesHaveNoNul();
    CompareIsSame(s.mem, s.at, Ascii(PSEUDO[0].0));
    CompareIsSame(s.mem, s.at, Ascii(PSEUDO[1].0));
    CompareIsSame(s.mem, s.at, Ascii(PSEUDO[2].0));
    CompareIsSame(s.mem, s.at, Ascii(PSEUDO[3].0));
  }

  /** A row of the table of headers that Lua hands in. */
  datatype Slot = Slot(key: Str, value: Str)

  const HOST := Str(Ascii("host"), 0, 4)

  /** What the j-th entry becomes, if it becomes a header. */
  function SlotOf(b: Bytes, j: nat): seq<Slot>
    requires 12 + 8 * j <= |b|
  {
    match KindOf(KeyStr(b, j))
    case Some(Plain) => [Slot(KeyStr(b, j), ValueStr(b, j))]
    case Some(Authority) => [Slot(HOST, ValueStr(b, j))]
    case _ => []
  }

  function SlotsOf(b: Bytes, k: nat): (slots: seq<Slot>)
    requires 4 + 8 * k <= |b|
    ensures |slots| <= k
  {
    if k == 0 then [] else SlotsOf(b, k - 1) + SlotOf(b, k - 1)
  }

  /** The value of the last of the first k entries that is of a kind, or what was there before. */
  function LastStr(b: Bytes, k: nat, kind: Kind, before: Str): Str
    requires 4 + 8 * k <= |b|
  {
    if k == 0 then before
    else if KindOf(KeyStr(b, k - 1)) == Some(kind) then ValueStr(b, k - 1)
    else LastStr(b, k - 1, kind, before)
  }

  /** All that ngx_http_wasm_call_get looks at is inside the map: the lengths, and of each key as much
      as tells its kind. */
  ghost predicate Scans(b: Bytes) {
    TableFits(b) && forall j: nat :: j < Int32At(b, 0) ==> KindOf(KeyStr(b, j)).Some?
  }

  // ------------------------------------------------------------------------------------
  // ngx_http_wasm_call_get

  /** The module-level out-cells of send_http_call. */
  class Cells {
    var method_: Str
    var scheme: Str
    var host: Bytes
    var path: Str
    var body: Bytes
    var timeout: int
  }

  /** The registered callout. Its map is a buffer copied from the guest. */
  datatype Registration = Registration(up: Bytes, timeout: int, body: Option<Bytes>)

  /** ngx_strncasecmp. */
  method StrNCaseCmp(buf: array<byte>, at: int, name: Bytes) returns (same: Option<bool>)
    ensures same == Compare(buf[..], at, name)
  {
    var i := 0;
    while i < |name|
      invariant i <= |name| && Compare(buf[..], at, name) == Compare(buf[..], at + i, name[i..])
    {
      if at + i < 0 || at + i >= buf.Length {
        return None;
      }
      if LowByte(buf[at + i]) != LowByte(name[i]) {
        return Some(false);
      }
      if buf[at + i] == 0 {
        return Some(true);
      }
      assert name[i..][1..] == name[i + 1..];
      i := i + 1;
    }
    return Some(true);
  }

  /** The scan of the table of pseudo headers: finds the kind of each key that is inside the buffer. */
  method Recognize(buf: array<byte>, at: int, len: int) returns (kind: Option<Kind>)
    ensures kind == KindOf(Str(buf[..], at, len))
    ensures var key := Text(Str(buf[..], at, len)); key.Some? ==> kind == Some(Classify(key.value))
  {
    hide Compare, Ascii, Classify;
    ghost var s := Str(buf[..], at, len);
    KindIsClass(s);
    if len == 0 {
      return Some(Empty);
    }
    if at < 0 || at >= buf.Length {
      return None;
    }
    if buf[at] == 58 {
      for i := 0 to |PSEUDO|
        invariant KindOf(s) == KindFrom(s, i)
      {
        if len != |PSEUDO[i].0| {
          continue;
        }
        var same := StrNCaseCmp(buf, at, Ascii(PSEUDO[i].0));
        if same.None? {
          return None;
        }
        if same.value {
          return Some(PSEUDO[i].1);
        }
      }
    }
    return Some(Plain);
  }

  lemma NoText(b: Bytes)
    requires 4 <= |b|
    ensures TextSize(b, 0) == 0
  {
  }

  lemma StrsAt(b: Bytes, k: nat)
    requires 12 + 8 * k <= |b|
    ensures KeyStr(b, k) == Str(b, TextAt(b) + TextSize(b, k), Int32At(b, 4 + 8 * k))
    ensures ValueStr(b, k) == Str(b, KeyStr(b, k).at + KeyStr(b, k).len + 1, Int32At(b, 8 + 8 * k))
    ensures TextSize(b, k + 1) == TextSize(b, k) + KeyStr(b, k).len + 1 + ValueStr(b, k).len + 1
  {
    hide Int32At;
  }

  /** The cursors of an iterator that has come over k entries of any buffer. */
  ghost predicate At(it: Iter, k: nat)
    reads it, it.buf
  {
    && 4 + 8 * k <= it.buf.Length && it.idx == k && it.len == Int32At(it.buf[..], 0) && it.sizePtr == 4 + 8 * k
    && it.dataPtr == TextAt(it.buf[..]) + TextSize(it.buf[..], k)
  }

  /** The body of the decode loop for one entry: its key is at `key`, its value at `val`. */
  method DecodeEntry(map_: array<byte>, ghost k: nat, key: int, keyLen: int, val: int, valLen: int,
                     headers: array<Slot>, out: nat, cells: Cells)
    returns (inside: bool, next: nat)
    requires 12 + 8 * k <= map_.Length && out < headers.Length
    requires KeyStr(map_[..], k) == Str(map_[..], key, keyLen) && ValueStr(map_[..], k) == Str(map_[..], val, valLen)
    modifies headers, cells
    ensures inside <==> KindOf(KeyStr(map_[..], k)).Some?
    ensures inside ==>
              && next == out + |SlotOf(map_[..], k)| <= headers.Length
              && headers[..next] == old(headers[..out]) + SlotOf(map_[..], k)
              && (forall j :: next <= j < headers.Length ==> headers[j] == old(headers[j]))
              && cells.host == old(cells.host) && cells.timeout == old(cells.timeout) && cells.body == old(cells.body)
              && var kind, value := KindOf(KeyStr(map_[..], k)).value, ValueStr(map_[..], k);
                 && cells.path == (if kind == Path then value else old(cells.path))
                 && cells.method_ == (if kind == Method then value else old(cells.method_))
                 && cells.scheme == (if kind == Scheme then value else old(cells.scheme))
  {
    hide KindOf, KeyStr, ValueStr, Ascii, Classify;
    next := out;
    var kind := Recognize(map_, key, keyLen);
    if kind.None? {
      return false, out;
    }
    var value := Str(map_[..], val, valLen);
    match kind.value {
      case Empty => // skipped
      case Path => cells.path := value;
      case Method => cells.method_ := value;
      case Scheme => cells.scheme := value;
      case Authority =>
        headers[out] := Slot(HOST, value);
        next := out + 1;
      case Plain =>
        headers[out] := Slot(Str(map_[..], key, keyLen), value);
        next := out + 1;
    }
    return true, next;
  }

  /** ngx_http_wasm_call_get: fills `headers`, which has one slot more than the map counts, from its
      start and marks the end. It stores pointers and lengths; what it looks at is inside the map exactly
      when Scans. */
  method CallGet(c: Registration, map_: array<byte>, headers: array<Slot>, cells: Cells)
    returns (out: nat, inside: bool)
    requires 4 <= map_.Length <= UINT32 && headers.Length > Int32At(map_[..], 0)
    modifies headers, cells
    ensures inside <==> Scans(map_[..])
    ensures inside ==>
              var b := map_[..]; var n := Int32At(b, 0);
              && out == |SlotsOf(b, n)| < headers.Length
              && headers[..out] == SlotsOf(b, n) && headers[out].key.len == 0
              && (forall j :: out < j < headers.Length ==> headers[j] == old(headers[j]))
              && cells.path == LastStr(b, n, Path, old(cells.path))
              && cells.method_ == LastStr(b, n, Method, old(cells.method_))
              && cells.scheme == LastStr(b, n, Scheme, old(cells.scheme))
              && cells.host == c.up && cells.timeout == c.timeout
              && cells.body == if c.body.Some? then c.body.value else []
  {
    hide KindOf, KeyStr, ValueStr, SlotOf, Int32At, TextSize;
    NoText(map_[..]);
    cells.host := c.up;
    cells.timeout := c.timeout;
    ghost var b := map_[..];
    var it := new Iter(map_);
    ghost var k: nat := 0;
    out, inside := 0, true;
    while true
      invariant inside && it.buf == map_ && fresh(it) && At(it, k) && map_[..] == b
      invariant 0 <= it.len ==> k <= it.len
      invariant forall j: nat :: j < k ==> KindOf(KeyStr(b, j)).Some?
      invariant out == |SlotsOf(b, k)| && out <= headers.Length
      invariant headers[..out] == SlotsOf(b, k)
      invariant forall j :: out <= j < headers.Length ==> headers[j] == old(headers[j])
      invariant cells.path == LastStr(b, k, Path, old(cells.path))
      invariant cells.method_ == LastStr(b, k, Method, old(cells.method_))
      invariant cells.scheme == LastStr(b, k, Scheme, old(cells.scheme))
      invariant cells.host == c.up && cells.timeout == c.timeout
      decreases map_.Length - 8 * k
    {
      if it.idx != it.len && it.sizePtr + 8 > map_.Length {
        return out, false;
      }
      var ok, key, keyLen, val, valLen := it.Next();
      if !ok {
        break;
      }
      if out >= headers.Length {
        return out, false;
      }
      StrsAt(b, k);
      inside, out := DecodeEntry(map_, k, key, keyLen, val, valLen, headers, out, cells);
      if !inside {
        return;
      }
      k := k + 1;
    }
    // mark the end
    headers[out] := headers[out].(key := headers[out].key.(len := 0));
    cells.body := if c.body.Some? then c.body.value else [];
  }

  // ------------------------------------------------------------------------------------
  // The Lua side

  /** The value of a key in the table of headers: a string, or an array once it is repeated. */
  datatype LuaValue = One(v: Bytes) | Many(vs: seq<Bytes>)

  function Values(t: map<Bytes, LuaValue>, k: Bytes): seq<Bytes> {
    if k !in t then [] else
    match t[k]
    case One(v) => [v]
    case Many(vs) => vs
  }

  /** The values a list of headers has for a key, in order. */
  function ValuesOf(hs: seq<Pair>, k: Bytes): seq<Bytes> {
    if hs == [] then []
    else ValuesOf(hs[..|hs| - 1], k) + if hs[|hs| - 1].key == k then [hs[|hs| - 1].value] else []
  }

  lemma ValuesSnoc(hs: seq<Pair>, p: Pair, k: Bytes)
    ensures ValuesOf(hs + [p], k) == ValuesOf(hs, k) + if p.key == k then [p.value] else []
  {
    assert (hs + [p])[..|hs + [p]| - 1] == hs;
  }

  /** A table holds for each key the values of the list, in list order, and nothing else. A
      single value is a plain string and several are an array. */
  ghost predicate Groups(t: map<Bytes, LuaValue>, hs: seq<Pair>) {
    && (forall k :: Values(t, k) == ValuesOf(hs, k))
    && (forall k :: k in t && t[k].Many? ==> |t[k].vs| >= 2)
    && (forall k :: k in t ==> exists p :: p in hs && p.key == k)
  }

  /** headers[k] = v, {headers[k], v} or table.insert. */
  function Insert(t: map<Bytes, LuaValue>, p: Pair): map<Bytes, LuaValue> {
    if p.key in t then
      match t[p.key]
      case One(v) => t[p.key := Many([v, p.value])]
      case Many(vs) => t[p.key := Many(vs + [p.value])]
    else t[p.key := One(p.value)]
  }

  lemma InsertGroups(t: map<Bytes, LuaValue>, hs: seq<Pair>, p: Pair)
    requires Groups(t, hs)
    ensures Groups(Insert(t, p), hs + [p])
  {
    var t' := Insert(t, p);
    forall k
      ensures Values(t', k) == ValuesOf(hs + [p], k)
    {
      ValuesSnoc(hs, p, k);
      assert Values(t, k) == ValuesOf(hs, k);
    }
    forall k | k in t'
      ensures exists q :: q in hs + [p] && q.key == k
    {
      if k == p.key {
        assert p in hs + [p];
      } else {
        var q :| q in hs && q.key == k;
        assert q in hs + [p];
      }
    }
  }

  /** What Lua makes of the slots it reads. */
  function TextsOf(hs: seq<Slot>): (ps: seq<Pair>)
    ensures |ps| == |hs|
  {
    if hs == [] then []
    else TextsOf(hs[..|hs| - 1]) + [Pair(TextOr(hs[|hs| - 1].key), TextOr(hs[|hs| - 1].value))]
  }

  predicate Readable(h: Slot) {
    Text(h.key).Some? && Text(h.value).Some?
  }

  /** A table of slots that spells out hs and then a slot with an empty key. */
  ghost predicate Spells(slots: seq<Slot>, hs: seq<Slot>) {
    |hs| < |slots| && slots[..|hs|] == hs && slots[|hs|].key.len == 0 && forall h :: h in hs ==> h.key.len != 0
  }

  lemma SpellsAt(slots: seq<Slot>, hs: seq<Slot>, i: nat)
    requires Spells(slots, hs) && i <= |hs|
    ensures slots[i].key.len == 0 <==> i == |hs|
    ensures i < |hs| ==> slots[i] == hs[i]
  {
    if i < |hs| {
      assert slots[..|hs|][i] == slots[i];
      assert hs[i] in hs;
    }
  }

  lemma NoneGrouped(hs: seq<Slot>)
    ensures Groups(map[], TextsOf(hs[..0]))
  {
  }

  lemma TextsNext(hs: seq<Slot>, i: nat)
    requires i < |hs| && Readable(hs[i])
    ensures TextsOf(hs[..i + 1])
         == TextsOf(hs[..i]) + [Pair(Text(hs[i].key).value, Text(hs[i].value).value)]
  {
    hide Text;
    assert hs[..i + 1][..i] == hs[..i];
  }

  /** The scan of the header table in send_http_call; None stands for nil. It fails at a slot that
      cannot be read. */
  method GroupHeaders(slots: array<Slot>, n: nat, ghost hs: seq<Slot>)
    returns (ok: bool, headers: Option<map<Bytes, LuaValue>>)
    requires n < slots.Length && Spells(slots[..], hs) && |hs| <= n
    ensures ok <==> forall h :: h in hs ==> Readable(h)
    ensures ok && hs == [] ==> headers.None?
    ensures ok && hs != [] ==> headers.Some? && Groups(headers.value, TextsOf(hs))
  {
    hide Text, TextOr, TextsOf, Groups, Insert, Spells;
    SpellsAt(slots[..], hs, 0);
    if slots[0].key.len == 0 {
      return true, None;
    }
    var t := map[];
    var i := 0;
    NoneGrouped(hs);
    while i <= n - 1
      invariant i <= |hs| && i <= n
      invariant forall j :: 0 <= j < i ==> Readable(hs[j])
      invariant Groups(t, TextsOf(hs[..i]))
      decreases n - i
    {
      var hdr := slots[i];
      SpellsAt(slots[..], hs, i);
      if hdr.key.len == 0 {
        break;
      }
      var k, v := Text(hdr.key), Text(hdr.value);
      if k.None? || v.None? {
        assert !Readable(hs[i]);
        return false, None;
      }
      TextsNext(hs, i);
      InsertGroups(t, TextsOf(hs[..i]), Pair(k.value, v.value));
      t := Insert(t, Pair(k.value, v.value));
      i := i + 1;
    }
    assert hs[..|hs|] == hs;
    return true, Some(t);
  }

  datatype Request = Request(uri: Bytes, method_: Bytes, headers: Option<map<Bytes, LuaValue>>,
                             body: Option<Bytes>, timeout: int)

  function Uri(scheme: Bytes, host: Bytes, path: Bytes): Bytes {
    (if scheme != [] then scheme + Ascii("://") else Ascii("http://")) + host
    + (if path == [] then [] else if path[0] != 47 then Ascii("/") + path else path)
  }

  /** Every URI names a scheme and keeps the host apart from the path by a slash, whether or not
      the guest's path has one; a path that has one is not given another. */
  lemma UriShape(scheme: Bytes, host: Bytes, path: Bytes)
    ensures var u := Uri(scheme, host, path);
      var n := if scheme == [] then 4 else |scheme|;
      var rest := if |u| >= n + 3 + |host| then u[n + 3 + |host|..] else [];
      && |u| >= n + 3 + |host|
      && u[..n] == (if scheme == [] then Ascii("http") else scheme)
      && u[n..n + 3] == Ascii("://") && u[n + 3..n + 3 + |host|] == host
      && (rest == [] <==> path == [])
      && (path != [] ==> rest[0] == 47 && path == if path[0] == 47 then rest else rest[1..])
  {
    hide Ascii, Uri;
    var name := if scheme == [] then Ascii("http") else scheme;
    var rest := if path == [] then [] else if path[0] != 47 then [47] + path else path;
    UriParts(scheme, host, path);
    FourParts(name, Ascii("://"), host, rest);
  }

  lemma UriParts(scheme: Bytes, host: Bytes, path: Bytes)
    ensures Uri(scheme, host, path)
         == (if scheme == [] then Ascii("http") else scheme) + Ascii("://") + host
            + (if path == [] then [] else if path[0] != 47 then [47] + path else path)
  {
    assert Ascii("http://") == Ascii("http") + Ascii("://");
    assert Ascii("/") == [47];
  }

  lemma FourParts(a: Bytes, b: Bytes, c: Bytes, d: Bytes)
    ensures var u := a + b + c + d;
      && |u| == |a| + |b| + |c| + |d| && u[..|a|] == a && u[|a|..|a| + |b|] == b
      && u[|a| + |b|..|a| + |b| + |c|] == c && u[|a| + |b| + |c|..] == d
  {
  }

  // ------------------------------------------------------------------------------------
  // From the map to the request

  lemma {:induction false} SlotsHaveKeys(b: Bytes, k: nat)
    requires 4 + 8 * k <= |b|
    ensures forall h :: h in SlotsOf(b, k) ==> h.key.len != 0
  {
    hide KeyStr, ValueStr, Ascii;
    if k > 0 {
      SlotsHaveKeys(b, k - 1);
    }
  }

  /** The slots spell out the headers of the entries, and a cell the last value of its kind. */
  lemma {:induction false} SlotsAreEmitted(b: Bytes, k: nat)
    requires 4 + 8 * k <= |b| && forall j: nat :: j < k ==> Text(KeyStr(b, j)).Some?
    ensures TextsOf(SlotsOf(b, k)) == Emitted(Shown(b, k))
  {
    hide KeyStr, ValueStr, Text, TextOr, SlotOf, EmittedOf, TextsOf, Emitted, LastOf;
    if k == 0 {
      NoneEmitted();
    } else {
      SlotsAreEmitted(b, k - 1);
      SlotIsEmitted(b, k - 1);
      TextsConcat(SlotsOf(b, k - 1), SlotOf(b, k - 1));
      EmittedSnoc(Shown(b, k - 1), Pair(TextOr(KeyStr(b, k - 1)), TextOr(ValueStr(b, k - 1))));
    }
  }

  lemma NoneEmitted()
    ensures TextsOf([]) == [] && Emitted([]) == []
  {
  }

  lemma SlotIsEmitted(b: Bytes, j: nat)
    requires 12 + 8 * j <= |b| && Text(KeyStr(b, j)).Some?
    ensures TextsOf(SlotOf(b, j)) == EmittedOf(Pair(TextOr(KeyStr(b, j)), TextOr(ValueStr(b, j))))
  {
    hide KeyStr, ValueStr, Classify, KindOf, Ascii;
    KindIsClass(KeyStr(b, j));
    HostText();
  }

  lemma HostText()
    ensures Text(HOST) == Some(Ascii("host"))
  {
    assert Ascii("host")[0..4] == Ascii("host");
  }

  lemma {:induction false} TextsConcat(a: seq<Slot>, b: seq<Slot>)
    ensures TextsOf(a + b) == TextsOf(a) + TextsOf(b)
  {
    hide Text;
    if b == [] {
      assert a + b == a;
    } else {
      TextsConcat(a, b[..|b| - 1]);
      assert (a + b)[..|a + b| - 1] == a + b[..|b| - 1];
    }
  }

  lemma LastOfNone(k: Kind, o: Bytes)
    ensures LastOf([], k, o) == o
  {
  }

  lemma LastSnoc(ps: seq<Pair>, p: Pair, k: Kind, o: Bytes)
    ensures LastOf(ps + [p], k, o) == if Classify(p.key) == k then p.value else LastOf(ps, k, o)
  {
    hide Classify;
    assert (ps + [p])[..|ps + [p]| - 1] == ps;
  }

  lemma {:induction false} CellIsLast(b: Bytes, k: nat, kind: Kind, before: Str)
    requires 4 + 8 * k <= |b| && forall j: nat :: j < k ==> Text(KeyStr(b, j)).Some?
    ensures TextOr(LastStr(b, k, kind, before)) == LastOf(Shown(b, k), kind, TextOr(before))
  {
    hide KeyStr, ValueStr, Text, TextOr, Classify, KindOf, LastOf;
    if k == 0 {
      LastOfNone(kind, TextOr(before));
    } else {
      CellIsLast(b, k - 1, kind, before);
      KindsAgree(b, k - 1);
      LastSnoc(Shown(b, k - 1), Pair(TextOr(KeyStr(b, k - 1)), TextOr(ValueStr(b, k - 1))), kind, TextOr(before));
    }
  }

  lemma {:induction false} SlotsCanBeRead(b: Bytes, k: nat)
    requires 4 + 8 * k <= |b|
    ensures (forall h :: h in SlotsOf(b, k) ==> Readable(h))
       <==> forall j: nat :: j < k ==> forall h :: h in SlotOf(b, j) ==> Readable(h)
  {
    hide SlotOf, Readable;
    if k > 0 {
      SlotsCanBeRead(b, k - 1);
    }
  }

  lemma {:induction false} NoneOfKind(b: Bytes, k: nat, kind: Kind, before: Str)
    requires 4 + 8 * k <= |b| && forall j: nat :: j < k ==> KindOf(KeyStr(b, j)) != Some(kind)
    ensures LastStr(b, k, kind, before) == before
  {
    hide KeyStr, ValueStr, KindOf;
    if k > 0 {
      NoneOfKind(b, k - 1, kind, before);
    }
  }

  lemma {:induction false} LastIsGiven(b: Bytes, k: nat, kind: Kind, before: Str, j: nat)
    requires 4 + 8 * k <= |b| && j < k && KindOf(KeyStr(b, j)) == Some(kind)
    requires forall i: nat :: j < i < k ==> KindOf(KeyStr(b, i)) != Some(kind)
    ensures LastStr(b, k, kind, before) == ValueStr(b, j)
  {
    hide KeyStr, ValueStr, KindOf;
    if j < k - 1 {
      LastIsGiven(b, k - 1, kind, before, j);
    }
  }

  /** A cell that the map does not give can be read as it is. */
  ghost predicate LeftCanBeRead(b: Bytes, kind: Kind, before: Str)
    requires TableFits(b)
  {
    Absent(b, kind) ==> Text(before).Some?
  }

  lemma KindsAgree(b: Bytes, j: nat)
    requires 12 + 8 * j <= |b| && Text(KeyStr(b, j)).Some?
    ensures KindOf(KeyStr(b, j)) == Some(KindAt(b, j))
  {
    KindIsClass(KeyStr(b, j));
  }

  /** Of a pseudo header only the last value is used. */
  lemma LastIsUsed(b: Bytes, kind: Kind, j: nat)
    requires TableFits(b) && (kind == Path || kind == Method || kind == Scheme)
    requires j < Int32At(b, 0) && KindAt(b, j) == kind
    requires forall i: nat :: j < i < Int32At(b, 0) ==> KindAt(b, i) != kind
    ensures forall i: nat :: i < Int32At(b, 0) && KindAt(b, i) == kind && Used(b, i) <==> i == j
  {
    hide Int32At, KindAt;
  }

  /** A cell that the map has given can be read exactly when the value of the last entry of its kind can. */
  lemma CellReads(b: Bytes, kind: Kind, before: Str)
    requires TableFits(b) && (kind == Path || kind == Method || kind == Scheme)
    requires forall j: nat :: j < Int32At(b, 0) ==> Text(KeyStr(b, j)).Some?
    ensures Text(LastStr(b, Int32At(b, 0), kind, before)).Some?
       <==> && LeftCanBeRead(b, kind, before)
            && forall j: nat :: j < Int32At(b, 0) && KindAt(b, j) == kind && Used(b, j) ==> Text(ValueStr(b, j)).Some?
  {
    hide KeyStr, ValueStr, Text, KindOf, KindAt, Int32At, Used;
    var n := Int32At(b, 0);
    forall j: nat | j < n
      ensures KindOf(KeyStr(b, j)) == Some(KindAt(b, j))
    {
      KindsAgree(b, j);
    }
    if Absent(b, kind) {
      NoneOfKind(b, n, kind, before);
    } else {
      var j := LastOfKind(b, n, kind);
      LastIsGiven(b, n, kind, before, j);
      LastIsUsed(b, kind, j);
    }
  }

  lemma {:induction false} LastOfKind(b: Bytes, n: nat, kind: Kind) returns (j: nat)
    requires 4 + 8 * n <= |b| && exists i: nat :: i < n && KindAt(b, i) == kind
    ensures j < n && KindAt(b, j) == kind && forall i: nat :: j < i < n ==> KindAt(b, i) != kind
  {
    hide KindAt;
    if KindAt(b, n - 1) == kind {
      j := n - 1;
    } else {
      j := LastOfKind(b, n - 1, kind);
    }
  }

  /** The slots can be read exactly when the keys and the values of headers can. */
  lemma SlotsRead(b: Bytes)
    requires Scans(b)
    ensures (forall h :: h in SlotsOf(b, Int32At(b, 0)) ==> Readable(h))
       <==> && (forall j: nat :: j < Int32At(b, 0) ==> Text(KeyStr(b, j)).Some?)
            && (forall j: nat :: j < Int32At(b, 0) && (KindAt(b, j) == Plain || KindAt(b, j) == Authority)
                  ==> Text(ValueStr(b, j)).Some?)
  {
    hide KeyStr, ValueStr, Text, KindOf, KindAt, Int32At, SlotOf, SlotsOf, Readable;
    var n := Int32At(b, 0);
    SlotsCanBeRead(b, n);
    forall j: nat | j < n
      ensures (forall h :: h in SlotOf(b, j) ==> Readable(h))
         <==> && Text(KeyStr(b, j)).Some?
              && (KindAt(b, j) == Plain || KindAt(b, j) == Authority ==> Text(ValueStr(b, j)).Some?)
    {
      SlotReads(b, j);
    }
  }

  lemma SlotReads(b: Bytes, j: nat)
    requires 12 + 8 * j <= |b| && KindOf(KeyStr(b, j)).Some?
    ensures (forall h :: h in SlotOf(b, j) ==> Readable(h))
       <==> && Text(KeyStr(b, j)).Some?
            && (KindAt(b, j) == Plain || KindAt(b, j) == Authority ==> Text(ValueStr(b, j)).Some?)
  {
    hide KeyStr, ValueStr, Classify, KindOf, Ascii, Text;
    KindIsClass(KeyStr(b, j));
    HostText();
    if SlotOf(b, j) != [] {
      assert SlotOf(b, j)[0] in SlotOf(b, j);
    }
  }

  /** Keys that can be read are inside as far as the scan looks at them. */
  lemma KeysScan(b: Bytes)
    requires TableFits(b) && forall j: nat :: j < Int32At(b, 0) ==> Text(KeyStr(b, j)).Some?
    ensures Scans(b)
  {
    hide KeyStr, Text, KindOf, KindAt, Int32At;
    forall j: nat | j < Int32At(b, 0)
      ensures KindOf(KeyStr(b, j)).Some?
    {
      KindsAgree(b, j);
    }
  }

  /** All that Lua reads after ngx_http_wasm_call_get can be read. */
  ghost predicate LuaReads(b: Bytes, path: Str, method_: Str, scheme: Str)
    requires Scans(b)
  {
    var n := Int32At(b, 0);
    && (forall h :: h in SlotsOf(b, n) ==> Readable(h))
    && Text(LastStr(b, n, Path, path)).Some?
    && Text(LastStr(b, n, Method, method_)).Some?
    && Text(LastStr(b, n, Scheme, scheme)).Some?
  }

  ghost predicate CanBeSent(b: Bytes, path: Str, method_: Str, scheme: Str) {
    && ReadsFit(b)
    && LeftCanBeRead(b, Path, path) && LeftCanBeRead(b, Method, method_) && LeftCanBeRead(b, Scheme, scheme)
  }

  /** The scan and the reads of Lua succeed exactly when everything that is read is there. */
  lemma ReadExactlyWhen(b: Bytes, path: Str, method_: Str, scheme: Str)
    ensures Scans(b) && LuaReads(b, path, method_, scheme) <==> CanBeSent(b, path, method_, scheme)
  {
    hide KeyStr, ValueStr, Text, KindOf, KindAt, Int32At, SlotsOf, Readable, LastStr, LeftCanBeRead;
    if TableFits(b) && forall j: nat :: j < Int32At(b, 0) ==> Text(KeyStr(b, j)).Some? {
      KeysScan(b);
      CellReads(b, Path, path);
      CellReads(b, Method, method_);
      CellReads(b, Scheme, scheme);
    }
    if Scans(b) {
      SlotsRead(b);
    }
  }

  // ------------------------------------------------------------------------------------
  // The request, in literal names

  /** The value of the last entry that bears a name, in any case, or the given one. */
  function LastNamed(ps: seq<Pair>, name: string, otherwise: Bytes): Bytes {
    if ps == [] then otherwise
    else if Lower(ps[|ps| - 1].key) == Ascii(name) then ps[|ps| - 1].value
    else LastNamed(ps[..|ps| - 1], name, otherwise)
  }

  /** The headers that go out: not the entries without a name nor those that say path, method and scheme;
      the authority goes out as the host; all others as they are. */
  function Outgoing(ps: seq<Pair>): seq<Pair> {
    if ps == [] then []
    else
      var p := ps[|ps| - 1];
      Outgoing(ps[..|ps| - 1])
      + if p.key == [] || Lower(p.key) == Ascii(":path") || Lower(p.key) == Ascii(":method")
           || Lower(p.key) == Ascii(":scheme") then []
        else if Lower(p.key) == Ascii(":authority") then [Pair(Ascii("host"), p.value)]
        else [p]
  }

  lemma NamedIsLower(key: Bytes, name: string)
    requires forall i :: 0 <= i < |name| ==> name[i] == ':' || 'a' <= name[i] <= 'z'
    ensures Named(key, Ascii(name)) <==> Lower(key) == Ascii(name)
  {
    hide Ascii, Lower;
    LowerLiteral(name);
    if |key| == |name| {
      SameNoCaseIsLower(key, Ascii(name));
    }
  }

  /** Which names are which kind, in any case: a name decides the kind, and none is of two kinds. */
  lemma KindOfName(key: Bytes)
    ensures Classify(key) == Empty <==> key == []
    ensures Classify(key) == Path <==> Lower(key) == Ascii(":path")
    ensures Classify(key) == Method <==> Lower(key) == Ascii(":method")
    ensures Classify(key) == Scheme <==> Lower(key) == Ascii(":scheme")
    ensures Classify(key) == Authority <==> Lower(key) == Ascii(":authority")
  {
    hide Ascii, Lower, Named;
    NamedIsLower(key, ":path");
    NamedIsLower(key, ":method");
    NamedIsLower(key, ":scheme");
    NamedIsLower(key, ":authority");
    NamesStart();
    if key != [] {
      LowerColon(key);
    }
  }

  lemma NamesStart()
    ensures Ascii(":path")[..2] == [58, 112] && Ascii(":method")[..2] == [58, 109]
    ensures Ascii(":scheme")[..2] == [58, 115] && Ascii(":authority")[..2] == [58, 97]
  {
  }

  lemma LowerColon(key: Bytes)
    requires key != []
    ensures Lower(key)[0] == 58 <==> key[0] == 58
  {
  }

  lemma {:induction false} LastIsNamed(ps: seq<Pair>, o: Bytes)
    ensures LastOf(ps, Path, o) == LastNamed(ps, ":path", o)
    ensures LastOf(ps, Method, o) == LastNamed(ps, ":method", o)
    ensures LastOf(ps, Scheme, o) == LastNamed(ps, ":scheme", o)
  {
    hide Ascii, Lower, Classify;
    if ps != [] {
      LastIsNamed(ps[..|ps| - 1], o);
      KindOfName(ps[|ps| - 1].key);
    }
  }

  lemma {:induction false} EmittedIsOutgoing(ps: seq<Pair>)
    ensures Emitted(ps) == Outgoing(ps)
  {
    hide Ascii, Lower, Classify;
    if ps != [] {
      EmittedIsOutgoing(ps[..|ps| - 1]);
      KindOfName(ps[|ps| - 1].key);
    }
  }

  /** send_http_call up to the request it sends. The guest's map, in a buffer of any size and content, and
      what earlier callouts have left in the cells decide whether it gets that far. */
  method SendHttpCall(c: Registration, map_: array<byte>, cells: Cells) returns (r: Option<Request>)
    requires map_.Length <= UINT32
    modifies cells
    ensures r.Some? <==> CanBeSent(map_[..], old(cells.path), old(cells.method_), old(cells.scheme))
    ensures r.Some? ==>
              var ps := Shown(map_[..], Int32At(map_[..], 0));
              && r.value.uri == Uri(LastNamed(ps, ":scheme", TextOr(old(cells.scheme))), c.up,
                                    LastNamed(ps, ":path", TextOr(old(cells.path))))
              && (var m := LastNamed(ps, ":method", TextOr(old(cells.method_)));
                  r.value.method_ == if m == [] then Ascii("GET") else m)
              && (Outgoing(ps) == [] ==> r.value.headers.None?)
              && (Outgoing(ps) != [] ==> r.value.headers.Some? && Groups(r.value.headers.value, Outgoing(ps)))
              && r.value.body == (if c.body == Some([]) then None else c.body)
              && r.value.timeout == c.timeout
    ensures Scans(map_[..]) ==>
              var b := map_[..]; var n := Int32At(b, 0);
              && cells.path == LastStr(b, n, Path, old(cells.path))
              && cells.method_ == LastStr(b, n, Method, old(cells.method_))
              && cells.scheme == LastStr(b, n, Scheme, old(cells.scheme))
  {
    hide Emitted, Ascii, Groups, LastOf, Int32At, KindOf, KeyStr, ValueStr, KindAt, Text, SlotsOf, LastStr, Used, Shown,
         LastNamed, Outgoing;
    if map_.Length < 4 {
      return None;
    }
    ghost var b := map_[..];
    ReadExactlyWhen(b, cells.path, cells.method_, cells.scheme);
    // ngx_http_wasm_call_max_headers_count
    var it := new Iter(map_);
    var n := it.len;
    var slots := new Slot[if n >= 0 then n + 1 else 0](_ => Slot(Str([], 0, 0), Str([], 0, 0)));
    var out, inside := CallGet(c, map_, slots, cells);
    if !inside {
      return None;
    }
    SlotsHaveKeys(b, n);
    assert slots[..][..out] == slots[..out] && slots[..][out] == slots[out];
    var scheme := Text(cells.scheme);
    if scheme.None? {
      return None;
    }
    var path := Text(cells.path);
    if path.None? {
      return None;
    }
    var method_ := Text(cells.method_);
    if method_.None? {
      return None;
    }
    var ok, headers := GroupHeaders(slots, n, SlotsOf(b, n));
    if !ok {
      return None;
    }
    SlotsAreEmitted(b, n);
    CellIsLast(b, n, Path, old(cells.path));
    CellIsLast(b, n, Method, old(cells.method_));
    CellIsLast(b, n, Scheme, old(cells.scheme));
    LastIsNamed(Shown(b, n), TextOr(old(cells.path)));
    LastIsNamed(Shown(b, n), TextOr(old(cells.method_)));
    LastIsNamed(Shown(b, n), TextOr(old(cells.scheme)));
    EmittedIsOutgoing(Shown(b, n));
    var body := if |cells.body| > 0 then Some(cells.body) else None;
    r := Some(Request(Uri(scheme.value, cells.host, path.value),
                      if method_.value == [] then Ascii("GET") else method_.value, headers, body, cells.timeout));
  }

  // ------------------------------------------------------------------------------------
  // The response, on its way back to the guest

  /** What the HTTP client answers; the headers in the order `pairs` visits them. */
  datatype Answer = Answer(headers: seq<(Bytes, LuaValue)>, status: nat, body: Option<Bytes>)

  function Spread(name: Bytes, vs: seq<Bytes>): (r: seq<Pair>)
    ensures |r| == |vs|
  {
    seq(|vs|, i requires 0 <= i < |vs| => Pair(Lower(name), vs[i]))
  }

  function ValueSeq(v: LuaValue): seq<Bytes> {
    match v
    case One(x) => [x]
    case Many(vs) => vs
  }

  function Flat(hs: seq<(Bytes, LuaValue)>): seq<Pair> {
    if hs == [] then [] else Flat(hs[..|hs| - 1]) + Spread(hs[|hs| - 1].0, ValueSeq(hs[|hs| - 1].1))
  }

  function StatusPair(a: Answer): Pair {
    Pair(Ascii(":status"), Decimal(a.status))
  }

  /** The counting loop of handle_http_callback: the number of entries its buffer is sized for. */
  method CountEntries(hs: seq<(Bytes, LuaValue)>) returns (n: nat)
    ensures n == |Flat(hs)|
  {
    n := 0;
    var i := 0;
    while i < |hs|
      invariant i <= |hs| && n == |Flat(hs[..i])|
    {
      assert hs[..i + 1][..i] == hs[..i];
      n := n + match hs[i].1 case One(_) => 1 case Many(vs) => |vs|;
      i := i + 1;
    }
    assert hs[..i] == hs;
  }

  /** The entries of one header, from slot i on. */
  method SpreadValues(slots: array<Pair>, i: nat, name: Bytes, vs: seq<Bytes>)
    requires i + |vs| <= slots.Length
    modifies slots
    ensures slots[..i + |vs|] == old(slots[..i]) + Spread(name, vs)
    ensures forall j :: i + |vs| <= j < slots.Length ==> slots[j] == old(slots[j])
  {
    hide Lower;
    var low := Lower(name);
    var k := 0;
    while k < |vs|
      invariant k <= |vs|
      invariant slots[..i + k] == old(slots[..i]) + Spread(name, vs)[..k]
      invariant forall j :: i + k <= j < slots.Length ==> slots[j] == old(slots[j])
    {
      slots[i + k] := Pair(low, vs[k]);
      assert Spread(name, vs)[..k + 1] == Spread(name, vs)[..k] + [Pair(low, vs[k])];
      k := k + 1;
    }
    assert Spread(name, vs)[..k] == Spread(name, vs);
  }

  /** The filling loop and the status entry after it. The buffer has at least the slots that were
      counted, which is what is asked for. One more is written: all writes are in bounds exactly
      when there is one more. Out of bounds, the entry does not get into the buffer. */
  method FlattenAnswer(a: Answer, slots: array<Pair>) returns (n: nat, inBounds: bool)
    requires slots.Length >= |Flat(a.headers)|
    modifies slots
    ensures n == |Flat(a.headers)| + 1
    ensures inBounds <==> slots.Length > |Flat(a.headers)|
    ensures inBounds ==> slots[..n] == Flat(a.headers) + [StatusPair(a)]
    ensures slots[..n - 1] == Flat(a.headers)
    ensures forall j :: n <= j < slots.Length ==> slots[j] == old(slots[j])
  {
    hide Spread, Decimal, Ascii, Flat, ValueSeq;
    n := CountEntries(a.headers);
    var i, k := 0, 0;
    FlatNone(a.headers);
    while k < |a.headers|
      invariant k <= |a.headers| && i == |Flat(a.headers[..k])| <= n
      invariant slots[..i] == Flat(a.headers[..k])
      invariant forall j :: n <= j < slots.Length ==> slots[j] == old(slots[j])
    {
      var vs := ValueSeq(a.headers[k].1);
      FlatNext(a.headers, k);
      FlatPrefix(a.headers, k + 1);
      SpreadValues(slots, i, a.headers[k].0, vs);
      i := i + |vs|;
      k := k + 1;
    }
    assert a.headers[..k] == a.headers;
    inBounds := n < slots.Length;
    if inBounds {
      slots[n] := Pair(Ascii(":status"), Decimal(a.status));
    }
    n := n + 1;
  }

  lemma FlatNone(hs: seq<(Bytes, LuaValue)>)
    ensures Flat(hs[..0]) == []
  {
  }

  lemma FlatNext(hs: seq<(Bytes, LuaValue)>, k: nat)
    requires k < |hs|
    ensures Flat(hs[..k + 1]) == Flat(hs[..k]) + Spread(hs[k].0, ValueSeq(hs[k].1))
  {
    assert hs[..k + 1][..k] == hs[..k];
  }

  lemma {:induction false} FlatPrefix(hs: seq<(Bytes, LuaValue)>, k: nat)
    requires k <= |hs|
    ensures |Flat(hs[..k])| <= |Flat(hs)|
  {
    if k == |hs| {
      assert hs[..k] == hs;
    } else {
      FlatPrefix(hs[..|hs| - 1], k);
      assert hs[..|hs| - 1][..k] == hs[..k];
    }
  }

  /** The guest that asks for the headers of the response reads the flattened list back, as long
      as its last entry had a slot. */
  method CallResponseReachesGuest(a: Answer, slots: array<Pair>) returns (seen: Option<seq<Pair>>)
    requires slots.Length >= |Flat(a.headers)| && Fits(Flat(a.headers) + [StatusPair(a)])
    modifies slots
    ensures seen == if slots.Length > |Flat(a.headers)| then Some(Flat(a.headers) + [StatusPair(a)]) else None
  {
    var n, inBounds := FlattenAnswer(a, slots);
    if !inBounds {
      return None;
    }
    var rc, buf := CallResponseHeaders(slots[..n], true);
    EncodedHolds(slots[..n], []);
    assert buf[..] == Encode(slots[..n]) + [];
    var ps := ReadMap(buf, slots[..n]);
    return Some(ps);
  }
}
