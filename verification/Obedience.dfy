/**
 The calls each building block makes are calls the ABI allows, and the contexts the guest
 knows afterwards are again the contexts in use.
 */
module Obedience {
  import opened Common
  import opened Queues
  import opened Abi
  import opened Lifecycle
  import opened Invariant
  import opened Preservation
  import opened PreservationHttp

  /** The state of the acceptor after one call it allows. */
  ghost predicate Allows(t: Tracker, pl: Ref, what: What, t2: Tracker) {
    Accept(t, pl, what) == Some(t2)
  }

  ghost function CtxKey(w: World, p: Ref): (Ref, nat)
    requires p in w.pctxs
  {
    (w.pctxs[p].plugin, w.pctxs[p].id)
  }

  ghost predicate HasParent(w: World, h: Ref) {
    h in w.hctxs && w.hctxs[h].parent in w.pctxs
  }

  ghost function HttpKey(w: World, h: Ref): (Ref, nat)
    requires HasParent(w, h)
  {
    (w.pctxs[w.hctxs[h].parent].plugin, w.hctxs[h].id)
  }

  // ------------------------------------------------------------------------------------
  // What the ids tell

  /** The guest does not know a context that is not in use. */
  lemma SpareCtxUnknown(t: Tracker, w: World, p: Ref)
    requires Matches(t, w) && Ids(w.plugins, w.pctxs, w.hctxs, w.minted, w.wrapped)
    requires p in w.pctxs && p !in w.busy && w.pctxs[p].plugin !in w.wrapped
    ensures CtxKey(w, p) !in t.live && w.pctxs[p].id != 0
    ensures CtxKey(w, p) in w.minted && w.minted[CtxKey(w, p)] == CtxRecord(p)
  {
  }

  lemma SpareHttpUnknown(t: Tracker, w: World, h: Ref)
    requires Matches(t, w) && Ids(w.plugins, w.pctxs, w.hctxs, w.minted, w.wrapped)
    requires HasParent(w, h) && h !in w.busyHttp && HttpKey(w, h).0 !in w.wrapped
    ensures HttpKey(w, h) !in t.live && w.hctxs[h].id != 0 && HttpKey(w, h).0 in w.plugins
    ensures HttpKey(w, h) in w.minted && w.minted[HttpKey(w, h)] == HttpRecord(h)
  {
  }

  /** The guest knows no child of a context whose occupied queue is empty. */
  lemma NoChildKnown(t: Tracker, w: World, p: Ref)
    requires Matches(t, w) && Ids(w.plugins, w.pctxs, w.hctxs, w.minted, w.wrapped)
    requires ChildQueues(w.pctxs, w.hctxs, w.busyHttp)
    requires p in w.pctxs && w.pctxs[p].occupied == [] && w.pctxs[p].plugin !in w.wrapped
    ensures !HasChild(t, w.pctxs[p].plugin, w.pctxs[p].id)
  {
    var id := w.pctxs[p].id;
    forall k | k in t.live && k.0 == w.pctxs[p].plugin
      ensures t.live[k].parent != id
    {
      match w.minted[k]
      case CtxRecord(q) =>
        assert t.live[k].parent == 0 && id >= 1;
      case HttpRecord(h) =>
        var q := w.hctxs[h].parent;
        assert h !in w.pctxs[p].occupied;
        assert w.minted[(k.0, w.pctxs[q].id)] == CtxRecord(q) && w.minted[(k.0, id)] == CtxRecord(p);
    }
  }

  /** A stream context has no children. */
  lemma NoGrandchild(t: Tracker, w: World, h: Ref)
    requires Matches(t, w) && Ids(w.plugins, w.pctxs, w.hctxs, w.minted, w.wrapped)
    requires HasParent(w, h) && HttpKey(w, h).0 !in w.wrapped
    ensures !HasChild(t, HttpKey(w, h).0, HttpKey(w, h).1)
  {
    forall k | k in t.live && k.0 == HttpKey(w, h).0
      ensures t.live[k].parent != w.hctxs[h].id
    {
      match w.minted[k]
      case CtxRecord(q) =>
        assert t.live[k].parent == 0;
      case HttpRecord(g) =>
        var q := w.hctxs[g].parent;
        assert w.minted[(k.0, w.pctxs[q].id)] == CtxRecord(q);
        assert w.minted[(k.0, w.hctxs[h].id)] == HttpRecord(h);
    }
  }

  /** Done and delete of one context, as the acceptor sees them. */
  lemma DoneThenDelete(t: Tracker, pl: Ref, id: nat)
    requires (pl, id) in t.live && !t.live[(pl, id)].done && t.live[(pl, id)].parent != id
    requires !HasChild(t, pl, id)
    ensures var t1 := t.(live := t.live[(pl, id) := t.live[(pl, id)].(done := true)]);
      && Allows(t, pl, OnDone(id), t1)
      && Allows(t1, pl, OnDelete(id), t.(live := t.live - {(pl, id)}))
  {
    var t1 := t.(live := t.live[(pl, id) := t.live[(pl, id)].(done := true)]);
    forall k | k in t1.live && k.0 == pl
      ensures t1.live[k].parent != id
    {
      assert k in t.live;
    }
    assert t1.live - {(pl, id)} == t.live - {(pl, id)};
  }

  /** The three clauses that say which contexts the guest knows. */
  ghost predicate Knows(live: map<(Ref, nat), LiveCtx>, minted: map<(Ref, nat), Record>,
                        pctxs: map<Ref, PluginCtx>, busy: set<Ref>, hctxs: map<Ref, HttpCtx>, busyHttp: set<Ref>,
                        wrapped: set<Ref>) {
    && RootsKnown(live, pctxs, busy, wrapped)
    && StreamsKnown(live, pctxs, hctxs, busyHttp, wrapped)
    && OnlyInUse(live, minted, pctxs, busy, hctxs, busyHttp, wrapped)
  }

  ghost predicate SameRecords(pctxs: map<Ref, PluginCtx>, pctxs2: map<Ref, PluginCtx>) {
    pctxs.Keys == pctxs2.Keys && SameNames(pctxs, pctxs2)
  }

  /** What is known with one more context, unless its plugin is no longer followed. */
  function Learn(live: map<(Ref, nat), LiveCtx>, k: (Ref, nat), c: LiveCtx, wrapped: set<Ref>)
    : map<(Ref, nat), LiveCtx> {
    if k.0 in wrapped then live else live[k := c]
  }

  lemma LearnRoot(live: map<(Ref, nat), LiveCtx>, minted: map<(Ref, nat), Record>,
                  pctxs: map<Ref, PluginCtx>, pctxs2: map<Ref, PluginCtx>, busy: set<Ref>,
                  hctxs: map<Ref, HttpCtx>, busyHttp: set<Ref>, wrapped: set<Ref>, p: Ref)
    requires Knows(live, minted, pctxs, busy, hctxs, busyHttp, wrapped) && SameRecords(pctxs, pctxs2) && p in pctxs
    requires var k := (pctxs[p].plugin, pctxs[p].id);
      k.0 !in wrapped ==> k !in live && k in minted && minted[k] == CtxRecord(p)
    ensures Knows(Learn(live, (pctxs[p].plugin, pctxs[p].id), LiveCtx(0, false), wrapped), minted, pctxs2, busy + {p},
                  hctxs, busyHttp, wrapped)
  {
  }

  lemma ForgetRoot(live: map<(Ref, nat), LiveCtx>, minted: map<(Ref, nat), Record>,
                   pctxs: map<Ref, PluginCtx>, pctxs2: map<Ref, PluginCtx>, busy: set<Ref>,
                   hctxs: map<Ref, HttpCtx>, hctxs2: map<Ref, HttpCtx>, busyHttp: set<Ref>,
                   plugins: map<Ref, Plugin>, wrapped: set<Ref>, p: Ref)
    requires Knows(live, minted, pctxs, busy, hctxs, busyHttp, wrapped) && SameRecords(pctxs, pctxs2) && p in pctxs
    requires Ids(plugins, pctxs, hctxs, minted, wrapped)
    requires forall h :: h in hctxs2 ==> h in hctxs && hctxs2[h] == hctxs[h]
    requires forall h :: h in busyHttp && h in hctxs ==> h in hctxs2
    ensures Knows(live - {(pctxs[p].plugin, pctxs[p].id)}, minted, pctxs2, busy - {p}, hctxs2, busyHttp, wrapped)
  {
  }

  lemma LearnStream(live: map<(Ref, nat), LiveCtx>, minted: map<(Ref, nat), Record>,
                    pctxs: map<Ref, PluginCtx>, pctxs2: map<Ref, PluginCtx>, busy: set<Ref>,
                    hctxs: map<Ref, HttpCtx>, busyHttp: set<Ref>, wrapped: set<Ref>, h: Ref)
    requires Knows(live, minted, pctxs, busy, hctxs, busyHttp, wrapped) && SameRecords(pctxs, pctxs2)
    requires h in hctxs && hctxs[h].parent in pctxs
    requires var k := (pctxs[hctxs[h].parent].plugin, hctxs[h].id);
      k.0 !in wrapped ==> k !in live && k in minted && minted[k] == HttpRecord(h)
    ensures Knows(Learn(live, (pctxs[hctxs[h].parent].plugin, hctxs[h].id), LiveCtx(pctxs[hctxs[h].parent].id, false),
                        wrapped),
                  minted, pctxs2, busy, hctxs, busyHttp + {h}, wrapped)
  {
  }

  lemma ForgetStream(live: map<(Ref, nat), LiveCtx>, minted: map<(Ref, nat), Record>,
                     pctxs: map<Ref, PluginCtx>, pctxs2: map<Ref, PluginCtx>, busy: set<Ref>,
                     hctxs: map<Ref, HttpCtx>, busyHttp: set<Ref>, plugins: map<Ref, Plugin>, wrapped: set<Ref>, h: Ref)
    requires Knows(live, minted, pctxs, busy, hctxs, busyHttp, wrapped) && SameRecords(pctxs, pctxs2)
    requires Ids(plugins, pctxs, hctxs, minted, wrapped)
    requires h in hctxs && hctxs[h].parent in pctxs
    ensures Knows(live - {(pctxs[hctxs[h].parent].plugin, hctxs[h].id)}, minted, pctxs2, busy, hctxs, busyHttp - {h},
                  wrapped)
  {
  }

  /** What is known once the plugins that are followed are fewer. */
  function Followed(t: Tracker, wrapped: set<Ref>, wrapped2: set<Ref>, pl: Ref): Tracker {
    if wrapped2 == wrapped then t else Strip(t, pl)
  }

  /** A record of pl that is minted but not in use, with a new id or as the counter wraps. */
  lemma MintStream(t: Tracker, minted: map<(Ref, nat), Record>,
                   pctxs: map<Ref, PluginCtx>, pctxs2: map<Ref, PluginCtx>, busy: set<Ref>,
                   hctxs: map<Ref, HttpCtx>, busyHttp: set<Ref>, wrapped: set<Ref>, wrapped2: set<Ref>,
                   k: (Ref, nat), h: Ref, c: HttpCtx)
    requires Knows(t.live, minted, pctxs, busy, hctxs, busyHttp, wrapped) && SameRecords(pctxs, pctxs2)
    requires (wrapped2 == wrapped && (k.0 in wrapped || k !in minted)) || wrapped2 == wrapped + {k.0}
    requires h !in hctxs && h !in busyHttp
    ensures Knows(Followed(t, wrapped, wrapped2, k.0).live, minted[k := HttpRecord(h)], pctxs2, busy, hctxs[h := c],
                  busyHttp, wrapped2)
  {
  }

  lemma MintRoot(t: Tracker, minted: map<(Ref, nat), Record>, pctxs: map<Ref, PluginCtx>,
                 busy: set<Ref>, hctxs: map<Ref, HttpCtx>, busyHttp: set<Ref>, wrapped: set<Ref>, wrapped2: set<Ref>,
                 k: (Ref, nat), p: Ref, c: PluginCtx)
    requires Knows(t.live, minted, pctxs, busy, hctxs, busyHttp, wrapped)
    requires (wrapped2 == wrapped && (k.0 in wrapped || k !in minted)) || wrapped2 == wrapped + {k.0}
    requires p !in pctxs && p !in busy
    requires forall h :: h in hctxs ==> hctxs[h].parent in pctxs
    ensures Knows(Followed(t, wrapped, wrapped2, k.0).live, minted[k := CtxRecord(p)], pctxs[p := c], busy, hctxs,
                  busyHttp, wrapped2)
  {
  }

  // ------------------------------------------------------------------------------------
  // The blocks, one by one

  lemma AddPluginMatches(t: Tracker, w: World, start: bool)
    requires Matches(t, w) && Fresh(w)
    ensures var t2 := t.(loaded := t.loaded + {w.next});
      Allows(t, w.next, Loaded(start), t2) && Matches(t2, AddPlugin(w, start))
  {
  }

  lemma AbortLoadMatches(t: Tracker, w: World, start: bool)
    requires Matches(t, w) && Fresh(w) && PluginQueues(w.plugins, w.pctxs, w.busy)
    ensures var t1 := t.(loaded := t.loaded + {w.next});
      var t2 := t.(unloaded := t.unloaded + {w.next});
      Allows(t, w.next, Loaded(start), t1) && Allows(t1, w.next, Unloaded, t2) && Matches(t2, AbortLoad(w, start))
  {
    var t1 := t.(loaded := t.loaded + {w.next});
    assert !HasAny(t1, w.next);
    assert t1.loaded - {w.next} == t.loaded;
  }

  lemma TakeCtxMatches(t: Tracker, w: World, pl: Ref)
    requires Matches(t, w) && Fresh(w) && pl in w.plugins && w.plugins[pl].curCtxId < UINT32
    requires PluginQueues(w.plugins, w.pctxs, w.busy) && Ids(w.plugins, w.pctxs, w.hctxs, w.minted, w.wrapped)
    requires forall h :: h in w.hctxs ==> w.hctxs[h].parent in w.pctxs
    ensures Matches(Followed(t, w.wrapped, TakeCtx(w, pl).wrapped, pl), TakeCtx(w, pl))
  {
    hide RootsKnown, StreamsKnown, OnlyInUse;
    if w.plugins[pl].free == [] {
      var w' := TakeCtx(w, pl);
      if NextId(w.plugins[pl].curCtxId) != 0 {
        NextIdIsNew(w.plugins[pl].curCtxId);
      }
      MintRoot(t, w.minted, w.pctxs, w.busy, w.hctxs, w.busyHttp, w.wrapped, w'.wrapped,
               (pl, w'.plugins[pl].curCtxId), w.next, w'.pctxs[w.next]);
    }
  }

  lemma ActivateCtxMatches(t: Tracker, w: World, pl: Ref, poolOk: bool)
    requires Matches(t, w) && Spare(w, pl) && Last(w.plugins[pl].free) !in w.busy
    requires Ids(w.plugins, w.pctxs, w.hctxs, w.minted, w.wrapped)
    requires w.pctxs[Last(w.plugins[pl].free)].plugin == pl
    ensures var p := Last(w.plugins[pl].free);
      var t2 := t.(live := Learn(t.live, CtxKey(w, p), LiveCtx(0, false), w.wrapped));
      && (pl !in w.wrapped ==>
            && Allows(t, pl, ContextCreate(w.pctxs[p].id, 0, true), t2)
            && Allows(t, pl, ContextCreate(w.pctxs[p].id, 0, false), t))
      && Matches(t2, ActivateCtx(w, pl, poolOk))
  {
    hide Ids, RootsKnown, StreamsKnown, OnlyInUse;
    var p := Last(w.plugins[pl].free);
    if pl !in w.wrapped {
      SpareCtxUnknown(t, w, p);
    }
    LearnRoot(t.live, w.minted, w.pctxs, ActivateCtx(w, pl, poolOk).pctxs, w.busy, w.hctxs, w.busyHttp, w.wrapped, p);
  }

  lemma RotateCtxMatches(t: Tracker, w: World, pl: Ref)
    requires Matches(t, w) && Spare(w, pl)
    ensures Matches(t, RotateCtx(w, pl))
  {
  }

  lemma RetireCtxMatches(t: Tracker, w: World, p: Ref)
    requires Matches(t, w) && Idle(w, p)
    requires Ids(w.plugins, w.pctxs, w.hctxs, w.minted, w.wrapped)
    requires ChildQueues(w.pctxs, w.hctxs, w.busyHttp) && Pools(w.pctxs, w.busy, w.pools)
    ensures Matches(t.(live := t.live - {CtxKey(w, p)}), RetireCtx(w, p))
  {
    hide Ids, RootsKnown, StreamsKnown, OnlyInUse, ChildQueues, Pools;
    var w' := RetireCtx(w, p);
    RetireCtxTakesChildren(w, p);
    ForgetRoot(t.live, w.minted, w.pctxs, w'.pctxs, w.busy, w.hctxs, w'.hctxs, w.busyHttp, w.plugins, w.wrapped, p);
  }

  lemma DiscardPluginMatches(t: Tracker, w: World, pl: Ref)
    requires Matches(t, w) && Unused(w, pl) && pl < w.next
    requires PluginQueues(w.plugins, w.pctxs, w.busy)
    requires ChildQueues(w.pctxs, w.hctxs, w.busyHttp) && Pools(w.pctxs, w.busy, w.pools)
    ensures var t2 := t.(loaded := t.loaded - {pl}, unloaded := t.unloaded + {pl});
      Allows(t, pl, Unloaded, t2) && Matches(t2, DiscardPlugin(w, pl))
  {
    DiscardTakesContexts(w, pl);
    forall k | k in t.live
      ensures k.0 != pl
    {
      match w.minted[k]
      case CtxRecord(p) => assert p in w.busy;
      case HttpRecord(h) => assert w.hctxs[h].parent in w.busy;
    }
  }

  lemma TakeHttpMatches(t: Tracker, w: World, p: Ref)
    requires Matches(t, w) && CanTake(w, p) && w.nextHttp !in w.hctxs
    requires w.plugins[w.pctxs[p].plugin].curCtxId < UINT32
    requires Ids(w.plugins, w.pctxs, w.hctxs, w.minted, w.wrapped)
    requires ChildQueues(w.pctxs, w.hctxs, w.busyHttp)
    ensures Matches(Followed(t, w.wrapped, TakeHttp(w, p).wrapped, w.pctxs[p].plugin), TakeHttp(w, p))
  {
    hide RootsKnown, StreamsKnown, OnlyInUse;
    if w.pctxs[p].free == [] {
      var w' := TakeHttp(w, p);
      if NextId(w.plugins[w.pctxs[p].plugin].curCtxId) != 0 {
        NextIdIsNew(w.plugins[w.pctxs[p].plugin].curCtxId);
      }
      MintStream(t, w.minted, w.pctxs, w'.pctxs, w.busy, w.hctxs, w.busyHttp, w.wrapped, w'.wrapped,
                 (w.pctxs[p].plugin, w'.hctxs[w.nextHttp].id), w.nextHttp, w'.hctxs[w.nextHttp]);
    }
  }

  lemma RotateHttpMatches(t: Tracker, w: World, p: Ref)
    requires Matches(t, w) && SpareHttp(w, p)
    ensures Matches(t, RotateHttp(w, p))
  {
  }

  lemma ActivateHttpMatches(t: Tracker, w: World, p: Ref, r: ReqId)
    requires Matches(t, w) && SpareHttp(w, p) && r in w.requests && p in w.busy
    requires Last(w.pctxs[p].free) in w.hctxs && w.hctxs[Last(w.pctxs[p].free)].parent == p
    requires Last(w.pctxs[p].free) !in w.busyHttp
    requires Ids(w.plugins, w.pctxs, w.hctxs, w.minted, w.wrapped)
    ensures var h := Last(w.pctxs[p].free);
      var t2 := t.(live := Learn(t.live, HttpKey(w, h), LiveCtx(w.pctxs[p].id, false), w.wrapped));
      && (w.pctxs[p].plugin !in w.wrapped ==>
            && Allows(t, w.pctxs[p].plugin, ContextCreate(w.hctxs[h].id, w.pctxs[p].id, true), t2)
            && Allows(t, w.pctxs[p].plugin, ContextCreate(w.hctxs[h].id, w.pctxs[p].id, false), t))
      && Matches(t2, ActivateHttp(w, p, r))
  {
    hide Ids, StreamsKnown, OnlyInUse;
    var h := Last(w.pctxs[p].free);
    if w.pctxs[p].plugin !in w.wrapped {
      SpareHttpUnknown(t, w, h);
    }
    LearnStream(t.live, w.minted, w.pctxs, ActivateHttp(w, p, r).pctxs, w.busy, w.hctxs, w.busyHttp, w.wrapped, h);
  }

  lemma RetireHttpMatches(t: Tracker, w: World, r: ReqId)
    requires Matches(t, w) && HasFirst(w, r) && w.requests[r][0] in w.busyHttp
    requires Ids(w.plugins, w.pctxs, w.hctxs, w.minted, w.wrapped)
    ensures Matches(t.(live := t.live - {HttpKey(w, w.requests[r][0])}), RetireHttp(w, r))
  {
    ForgetStream(t.live, w.minted, w.pctxs, RetireHttp(w, r).pctxs, w.busy, w.hctxs, w.busyHttp, w.plugins, w.wrapped,
                 w.requests[r][0]);
  }
}
