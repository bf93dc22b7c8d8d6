/**
 Looking up one header for the guest: a request's pseudo headers come first, then its headers,
 which are a chunked list; the headers of a callout's response are a plain array.
 */
module HeaderLookup {
  import opened Common
  import opened HeaderMap
  import opened Serializers
  import opened ResponseHeaders
  import opened Callout

  // ------------------------------------------------------------------------------------
  // Specification: the first match of a flat list

  predicate IsMatch(e: Element, key: Bytes) {
    e.hash != 0 && Named(key, e.pair.key)
  }

  function FirstMatch(es: seq<Element>, key: Bytes): (v: Option<Bytes>)
    ensures v.None? ==> forall e :: e in es ==> !IsMatch(e, key)
    ensures v.Some? ==> exists k :: 0 <= k < |es| && IsMatch(es[k], key) && v.value == es[k].pair.value
                                    && forall j :: 0 <= j < k ==> !IsMatch(es[j], key)
  {
    if es == [] then None
    else if IsMatch(es[0], key) then Some(es[0].pair.value)
    else
      var v := FirstMatch(es[1..], key);
      assert v.Some? ==> forall k :: 0 <= k < |es[1..]| && IsMatch(es[1..][k], key) ==> IsMatch(es[k + 1], key);
      v
  }

  /** There is at most one answer that satisfies the contract of FirstMatch. */
  lemma FirstMatchIsUnique(es: seq<Element>, key: Bytes, k: nat)
    requires k < |es| && IsMatch(es[k], key) && forall j :: 0 <= j < k ==> !IsMatch(es[j], key)
    ensures FirstMatch(es, key) == Some(es[k].pair.value)
  {
    assert es[k] in es;
  }

  lemma {:induction false} FirstMatchConcat(a: seq<Element>, b: seq<Element>, key: Bytes)
    ensures FirstMatch(a + b, key) == if FirstMatch(a, key).Some? then FirstMatch(a, key) else FirstMatch(b, key)
  {
    if a == [] {
      assert a + b == b;
    } else {
      assert (a + b)[1..] == a[1..] + b;
      FirstMatchConcat(a[1..], b, key);
    }
  }

  /** The first value of a name in a list of pairs. */
  function FirstNamed(ps: seq<Pair>, name: Bytes): Option<Bytes> {
    if ps == [] then None
    else if ps[0].key == name then Some(ps[0].value)
    else FirstNamed(ps[1..], name)
  }

  lemma {:induction false} FirstNamedConcat(a: seq<Pair>, b: seq<Pair>, name: Bytes)
    ensures FirstNamed(a + b, name) == if FirstNamed(a, name).Some? then FirstNamed(a, name) else FirstNamed(b, name)
  {
    if a == [] {
      assert a + b == b;
    } else {
      assert (a + b)[1..] == a[1..] + b;
      FirstNamedConcat(a[1..], b, name);
    }
  }

  /** For names without NULs the lookup agrees with the enumeration: it finds what a guest finds
      that goes through all live headers, lower-cased, and takes the first of that name. */
  lemma {:induction false} LookupAgreesWithEnumeration(es: seq<Element>, key: Bytes)
    requires forall e :: e in es ==> 0 !in e.pair.key
    ensures FirstMatch(es, key) == FirstNamed(Live(es), Lower(key))
  {
    if es != [] {
      var e := es[0];
      assert forall d :: d in es[1..] ==> d in es;
      LookupAgreesWithEnumeration(es[1..], key);
      assert es == [e] + es[1..];
      LiveConcat([e], es[1..]);
      LiveOne(e);
      FirstNamedConcat(Live([e]), Live(es[1..]), Lower(key));
      if |key| == |e.pair.key| {
        SameNoCaseIsLower(key, e.pair.key);
      }
    }
  }

  lemma LiveOne(e: Element)
    ensures Live([e]) == if e.hash == 0 then [] else [Pair(Lower(e.pair.key), e.pair.value)]
  {
    assert [e][..0] == [];
  }

  // ------------------------------------------------------------------------------------
  // The walk over the parts

  /** A match in a part, with none before it, is the first match of the whole list. */
  lemma FoundIsFirst(parts: seq<seq<Element>>, p: nat, i: nat, key: Bytes)
    requires p < |parts| && i < |parts[p]| && IsMatch(parts[p][i], key)
    requires FirstMatch(Before(parts, p, i), key).None?
    ensures FirstMatch(Flatten(parts), key) == Some(parts[p][i].pair.value)
  {
    hide FirstMatch, IsMatch, Flatten;
    FlattenPrefix(parts, p + 1);
    var rest := Flatten(parts)[|Flatten(parts[..p + 1])|..];
    BeforeNextPart(parts, p);
    var here := parts[p][i..];
    assert Before(parts, p, |parts[p]|) == Before(parts, p, i) + here by {
      assert parts[p] == parts[p][..i] + here;
    }
    assert Flatten(parts) == Before(parts, p, i) + (here + rest);
    FirstMatchConcat(Before(parts, p, i), here + rest, key);
    assert (here + rest)[0] == parts[p][i];
    FirstMatchIsUnique(here + rest, key, 0);
  }

  /** The header loop of ngx_http_wasm_req_get_header. Once a part is used up the loop takes the
      first element of the next one without another look at its length. */
  method FindHeader(parts: seq<seq<Element>>, key: Bytes) returns (v: Option<Bytes>)
    requires ListShape(parts)
    ensures v == FirstMatch(Flatten(parts), key)
  {
    hide FirstMatch, Flatten, IsMatch;
    var p, i := 0, 0;
    NothingBefore(parts, key);
    while true
      invariant p < |parts| && i <= |parts[p]|
      invariant FirstMatch(Before(parts, p, i), key).None?
      decreases |parts| - p, |parts[p]| - i
    {
      if i >= |parts[p]| {
        BeforeNextPart(parts, p);
        if p + 1 == |parts| {
          assert parts[..p + 1] == parts;
          return None;
        }
        p := p + 1;
        i := 0;
      }
      var h := parts[p][i];
      BeforeNext(parts, p, i);
      OneMore(Before(parts, p, i), h, key);
      if h.hash != 0 && |key| == |h.pair.key| && SameNoCase(key, h.pair.key) {
        MatchBy(h, key);
        FoundIsFirst(parts, p, i, key);
        return Some(h.pair.value);
      }
      MatchBy(h, key);
      i := i + 1;
    }
  }

  lemma NothingBefore(parts: seq<seq<Element>>, key: Bytes)
    requires parts != []
    ensures FirstMatch(Before(parts, 0, 0), key).None?
  {
  }

  lemma OneMore(es: seq<Element>, e: Element, key: Bytes)
    requires FirstMatch(es, key).None?
    ensures FirstMatch(es + [e], key) == if IsMatch(e, key) then Some(e.pair.value) else None
  {
    FirstMatchConcat(es, [e], key);
  }

  lemma MatchBy(e: Element, key: Bytes)
    ensures IsMatch(e, key) <==> e.hash != 0 && |key| == |e.pair.key| && SameNoCase(key, e.pair.key)
  {
  }

  // ------------------------------------------------------------------------------------
  // Pseudo headers and the whole lookup

  /** A table as a list of live elements, so that its scan is a first match, too. */
  function AsElements(ps: seq<Pair>): (es: seq<Element>)
    ensures |es| == |ps| && forall i :: 0 <= i < |ps| ==> es[i] == Element(1, ps[i])
  {
    seq(|ps|, i requires 0 <= i < |ps| => Element(1, ps[i]))
  }

  /** The scan of an array of headers: of the static table of pseudo headers, and of the headers
      of a callout's response. */
  method ScanArray(hdr: seq<Pair>, key: Bytes) returns (v: Option<Bytes>)
    ensures v == FirstMatch(AsElements(hdr), key)
  {
    ghost var es := AsElements(hdr);
    for i := 0 to |hdr|
      invariant forall j :: 0 <= j < i ==> !IsMatch(es[j], key)
    {
      if |key| != |hdr[i].key| {
        continue;
      }
      if SameNoCase(key, hdr[i].key) {
        FirstMatchIsUnique(es, key, i);
        return Some(hdr[i].value);
      }
    }
    return None;
  }

  /** The pseudo header of a name in any case, with its field of the request, and none for other names. */
  predicate PseudoOf(r: RequestLine, key: Bytes, v: Option<Bytes>) {
    && (Lower(key) == Ascii(":scheme") ==> v == Some(if r.https then Ascii("https") else Ascii("http")))
    && (Lower(key) == Ascii(":path") ==> v == Some(r.path))
    && (Lower(key) == Ascii(":method") ==> v == Some(r.method_))
    && (Lower(key) == Ascii(":authority") ==> v == Some(r.authority))
    && (v.Some? ==> IsPseudoName(key))
  }

  predicate IsPseudoName(key: Bytes) {
    || Lower(key) == Ascii(":scheme") || Lower(key) == Ascii(":path")
    || Lower(key) == Ascii(":method") || Lower(key) == Ascii(":authority")
  }

  /** The names of the table, in order. */
  lemma TableNames(r: RequestLine)
    ensures var ps := RequestPseudo(r);
      && |ps| == 4 && ps[0].key == Ascii(":scheme") && ps[1].key == Ascii(":path") && ps[2].key == Ascii(":method")
      && ps[3].key == Ascii(":authority")
  {
  }

  lemma PseudoValues(r: RequestLine, key: Bytes)
    ensures PseudoOf(r, key, FirstMatch(AsElements(RequestPseudo(r)), key))
  {
    hide Ascii, Lower, FirstMatch;
    TableNames(r);
    var ps := RequestPseudo(r);
    var es := AsElements(ps);
    assert es + [] == es;
    forall i: nat | i < 4
      ensures Lower(key) == ps[i].key ==> FirstMatch(es, key) == Some(ps[i].value)
      ensures IsMatch(es[i], key) ==> Lower(key) == ps[i].key
    {
      if Lower(key) == ps[i].key {
        TableHides(r, [], i, key);
      }
      PseudoNames(r, i);
      if |key| == |ps[i].key| {
        SameNoCaseIsLower(key, ps[i].key);
      }
    }
  }

  /** ngx_http_wasm_get_pseudo_header for requests. */
  method PseudoHeader(r: RequestLine, key: Bytes) returns (v: Option<Bytes>)
    ensures v == FirstMatch(AsElements(RequestPseudo(r)), key)
    ensures PseudoOf(r, key, v)
  {
    hide Ascii;
    PseudoValues(r, key);
    if |key| == 0 || key[0] != 58 {
      NotPseudo(r, key);
      return None;
    }
    v := ScanArray(RequestPseudo(r), key);
  }

  /** Every name in the static table starts with a colon, so no other key is in it. */
  lemma NotPseudo(r: RequestLine, key: Bytes)
    requires key == [] || key[0] != 58
    ensures FirstMatch(AsElements(RequestPseudo(r)), key).None?
  {
    hide Ascii;
    var es := AsElements(RequestPseudo(r));
    ColonFirst(r);
    forall i | 0 <= i < |es|
      ensures !IsMatch(es[i], key)
    {
      assert es[i].pair.key[0] == 58;
    }
  }

  lemma ColonFirst(r: RequestLine)
    ensures forall p :: p in RequestPseudo(r) ==> p.key != [] && p.key[0] == 58
  {
  }

  /** ngx_http_wasm_req_get_header, up to the copy into the guest. */
  method RequestHeader(r: RequestLine, parts: seq<seq<Element>>, key: Bytes) returns (v: Option<Bytes>)
    requires ListShape(parts)
    ensures v == FirstMatch(AsElements(RequestPseudo(r)) + Flatten(parts), key)
    ensures IsPseudoName(key) ==> PseudoOf(r, key, v)
    ensures !IsPseudoName(key) ==> v == FirstMatch(Flatten(parts), key)
  {
    hide FirstMatch, Flatten, Ascii, Lower, RequestPseudo;
    FirstMatchConcat(AsElements(RequestPseudo(r)), Flatten(parts), key);
    v := PseudoHeader(r, key);
    if v.None? {
      v := FindHeader(parts, key);
    }
  }

  /** So a header of a request that bears the name of a pseudo header is never found, while the
      pseudo header itself always is. */
  lemma PseudoHides(r: RequestLine, es: seq<Element>, key: Bytes)
    requires IsPseudoName(key)
    ensures PseudoOf(r, key, FirstMatch(AsElements(RequestPseudo(r)) + es, key))
  {
    hide FirstMatch, Ascii, Lower, RequestPseudo;
    FirstMatchConcat(AsElements(RequestPseudo(r)), es, key);
    PseudoValues(r, key);
  }

  lemma TableHides(r: RequestLine, es: seq<Element>, i: nat, key: Bytes)
    requires i < 4 && Lower(key) == RequestPseudo(r)[i].key
    ensures FirstMatch(AsElements(RequestPseudo(r)) + es, key) == Some(RequestPseudo(r)[i].value)
  {
    var ps := RequestPseudo(r);
    var all := AsElements(ps) + es;
    forall j | 0 <= j <= i
      ensures IsMatch(all[j], key) <==> j == i
    {
      PseudoNames(r, j);
      PseudoNames(r, i);
      if |key| == |ps[j].key| {
        SameNoCaseIsLower(key, ps[j].key);
      }
    }
    FirstMatchIsUnique(all, key, i);
  }

  lemma PseudoNames(r: RequestLine, i: nat)
    requires i < 4
    ensures 0 !in RequestPseudo(r)[i].key && Lower(RequestPseudo(r)[i].key) == RequestPseudo(r)[i].key
    ensures forall j :: 0 <= j < 4 && RequestPseudo(r)[j].key == RequestPseudo(r)[i].key ==> j == i
  {
    hide Ascii, Lower;
    LowerLiteral(":scheme");
    LowerLiteral(":path");
    LowerLiteral(":method");
    LowerLiteral(":authority");
    SecondLetters();
  }

  lemma SecondLetters()
    ensures Ascii(":scheme")[1] == 115 && Ascii(":path")[1] == 112 && Ascii(":method")[1] == 109
      && Ascii(":authority")[1] == 97
  {
  }

  /** ngx_http_wasm_http_call_resp_get_header, up to the copy into the guest. */
  method CallResponseHeader(hdr: seq<Pair>, key: Bytes) returns (v: Option<Bytes>)
    ensures v == FirstMatch(AsElements(hdr), key)
  {
    if |hdr| == 0 {
      return None;
    }
    v := ScanArray(hdr, key);
  }
}
