/** The building blocks that work on HTTP contexts keep each clause of the invariant. */
module PreservationHttp {
  import opened Common
  import opened Queues
  import opened Abi
  import opened Lifecycle
  import opened Invariant
  import opened Preservation

  // ------------------------------------------------------------------------------------
  // Steps on single components

  /** The same plugin contexts up to their child queues. */
  ghost predicate SameButChildren(pctxs: map<Ref, PluginCtx>, pctxs2: map<Ref, PluginCtx>) {
    && pctxs.Keys == pctxs2.Keys
    && forall p | p in pctxs :: pctxs2[p] == pctxs[p].(occupied := pctxs2[p].occupied, free := pctxs2[p].free)
  }

  lemma QueuesIgnoreChildren(plugins: map<Ref, Plugin>, pctxs: map<Ref, PluginCtx>, pctxs2: map<Ref, PluginCtx>,
                             busy: set<Ref>)
    requires PluginQueues(plugins, pctxs, busy) && SameButChildren(pctxs, pctxs2)
    ensures PluginQueues(plugins, pctxs2, busy)
  {
  }

  lemma PoolsIgnoreChildren(pctxs: map<Ref, PluginCtx>, pctxs2: map<Ref, PluginCtx>, busy: set<Ref>,
                            pools: map<Ref, Ref>)
    requires Pools(pctxs, busy, pools) && SameButChildren(pctxs, pctxs2)
    ensures Pools(pctxs2, busy, pools)
  {
  }

  lemma HandlesIgnoreChildren(plugins: map<Ref, Plugin>, pctxs: map<Ref, PluginCtx>, pctxs2: map<Ref, PluginCtx>,
                              busy: set<Ref>, pluginHandles: set<Ref>, ctxHandles: set<Ref>)
    requires Handles(plugins, pctxs, busy, pluginHandles, ctxHandles) && SameButChildren(pctxs, pctxs2)
    ensures Handles(plugins, pctxs2, busy, pluginHandles, ctxHandles)
  {
  }

  lemma AddressesIgnoreChildren(plugins: map<Ref, Plugin>, pctxs: map<Ref, PluginCtx>, pctxs2: map<Ref, PluginCtx>,
                                hctxs: map<Ref, HttpCtx>, pools: map<Ref, Ref>, next: Ref, nextHttp: Ref,
                                freed: seq<Ref>)
    requires Addresses(plugins, pctxs, hctxs, pools, next, nextHttp, freed) && SameButChildren(pctxs, pctxs2)
    ensures Addresses(plugins, pctxs2, hctxs, pools, next, nextHttp, freed)
  {
  }

  // ------------------------------------------------------------------------------------
  // Taking an HTTP context

  ghost predicate CanTake(w: World, p: Ref) {
    OwnedCtx(w, p) && w.pctxs[p].pool.Some?
  }

  lemma TakeHttpQueues(w: World, p: Ref)
    requires CanTake(w, p)
    requires PluginQueues(w.plugins, w.pctxs, w.busy)
    ensures var w' := TakeHttp(w, p); PluginQueues(w'.plugins, w'.pctxs, w'.busy)
  {
  }

  lemma TakeHttpChildren(w: World, p: Ref)
    requires CanTake(w, p) && w.nextHttp !in w.hctxs
    requires ChildQueues(w.pctxs, w.hctxs, w.busyHttp)
    ensures var w' := TakeHttp(w, p); ChildQueues(w'.pctxs, w'.hctxs, w'.busyHttp)
  {
  }

  lemma TakeHttpRequests(w: World, p: Ref)
    requires CanTake(w, p) && w.nextHttp !in w.hctxs
    requires Requests(w.touched, w.requests, w.holder, w.hctxs, w.busyHttp)
    ensures var w' := TakeHttp(w, p); Requests(w'.touched, w'.requests, w'.holder, w'.hctxs, w'.busyHttp)
  {
  }

  lemma TakeHttpHandles(w: World, p: Ref)
    requires CanTake(w, p)
    requires Pools(w.pctxs, w.busy, w.pools)
    requires Handles(w.plugins, w.pctxs, w.busy, w.pluginHandles, w.ctxHandles)
    ensures var w' := TakeHttp(w, p);
      && Pools(w'.pctxs, w'.busy, w'.pools)
      && Handles(w'.plugins, w'.pctxs, w'.busy, w'.pluginHandles, w'.ctxHandles)
  {
  }

  lemma TakeHttpCounters(w: World, p: Ref)
    requires CanTake(w, p) && w.pctxs[p].plugin < w.next
    requires Counters(w.plugins, w.minted, w.next)
    ensures var w' := TakeHttp(w, p); Counters(w'.plugins, w'.minted, w'.next)
  {
  }

  lemma TakeHttpIds(w: World, p: Ref)
    requires CanTake(w, p) && w.nextHttp !in w.hctxs
    requires w.plugins[w.pctxs[p].plugin].curCtxId < UINT32
    requires Ids(w.plugins, w.pctxs, w.hctxs, w.minted, w.wrapped)
    ensures var w' := TakeHttp(w, p); Ids(w'.plugins, w'.pctxs, w'.hctxs, w'.minted, w'.wrapped)
  {
    if w.pctxs[p].free == [] {
      var w' := TakeHttp(w, p);
      if NextId(w.plugins[w.pctxs[p].plugin].curCtxId) != 0 {
        NextIdIsNew(w.plugins[w.pctxs[p].plugin].curCtxId);
      }
      IdsMintHttp(w.plugins, w.pctxs, w'.pctxs, w.hctxs, w.minted, w.wrapped, w'.wrapped, w.nextHttp,
                  w'.hctxs[w.nextHttp],
                  w'.plugins[w.pctxs[p].plugin]);
    }
  }

  lemma TakeHttpAddresses(w: World, p: Ref)
    requires CanTake(w, p)
    requires Addresses(w.plugins, w.pctxs, w.hctxs, w.pools, w.next, w.nextHttp, w.freed)
    ensures var w' := TakeHttp(w, p);
      Addresses(w'.plugins, w'.pctxs, w'.hctxs, w'.pools, w'.next, w'.nextHttp, w'.freed)
  {
  }

  lemma TakeHttpKeeps(w: World, p: Ref)
    requires Structure(w) && CanTake(w, p)
    ensures Structure(TakeHttp(w, p))
  {
    TakeHttpQueues(w, p);
    TakeHttpChildren(w, p);
    TakeHttpRequests(w, p);
    TakeHttpHandles(w, p);
    TakeHttpCounters(w, p);
    TakeHttpIds(w, p);
    TakeHttpAddresses(w, p);
  }

  // ------------------------------------------------------------------------------------
  // Putting an HTTP context back or to use

  ghost predicate SpareHttp(w: World, p: Ref) {
    p in w.pctxs && w.pctxs[p].free != []
  }

  lemma RotateHttpChildren(w: World, p: Ref)
    requires SpareHttp(w, p)
    requires ChildQueues(w.pctxs, w.hctxs, w.busyHttp)
    ensures var w' := RotateHttp(w, p); ChildQueues(w'.pctxs, w'.hctxs, w'.busyHttp)
  {
    LastNoDup(w.pctxs[p].free);
  }

  /** w' differs from w only in what OthersKeep lets change. */
  ghost predicate ChangesOnlyChildren(w: World, w': World) {
    && SameButChildren(w.pctxs, w'.pctxs)
    && w' == w.(pctxs := w'.pctxs, requests := w'.requests, holder := w'.holder, busyHttp := w'.busyHttp,
                calls := w'.calls)
  }

  /** The clauses that do not see the child queues carry over when nothing else changes. */
  lemma OthersKeep(w: World, w': World)
    requires Structure(w) && ChangesOnlyChildren(w, w')
    requires ChildQueues(w'.pctxs, w'.hctxs, w'.busyHttp)
    requires Requests(w'.touched, w'.requests, w'.holder, w'.hctxs, w'.busyHttp)
    ensures Structure(w')
  {
    QueuesIgnoreChildren(w.plugins, w.pctxs, w'.pctxs, w.busy);
    PoolsIgnoreChildren(w.pctxs, w'.pctxs, w.busy, w.pools);
    HandlesIgnoreChildren(w.plugins, w.pctxs, w'.pctxs, w.busy, w.pluginHandles, w.ctxHandles);
    AddressesIgnoreChildren(w.plugins, w.pctxs, w'.pctxs, w.hctxs, w.pools, w.next, w.nextHttp, w.freed);
    IdsSurvive(w.plugins, w'.plugins, w.pctxs, w'.pctxs, w.hctxs, w'.hctxs, w.minted, w.wrapped);
  }

  lemma ActivateHttpFrame(w: World, p: Ref, r: ReqId)
    requires SpareHttp(w, p) && r in w.requests
    ensures ChangesOnlyChildren(w, ActivateHttp(w, p, r))
  {
  }

  lemma RetireHttpFrame(w: World, r: ReqId)
    requires HasFirst(w, r)
    ensures ChangesOnlyChildren(w, RetireHttp(w, r))
  {
  }

  lemma RotateHttpKeeps(w: World, p: Ref)
    requires Structure(w) && SpareHttp(w, p)
    ensures Structure(RotateHttp(w, p))
  {
    hide ChildQueues, Pools, PluginQueues, Handles, Ids, Counters, Addresses, Requests;
    RotateHttpChildren(w, p);
    var w' := RotateHttp(w, p);
    OthersKeep(w, w');
  }

  lemma ActivateHttpChildren(w: World, p: Ref, r: ReqId)
    requires SpareHttp(w, p) && r in w.requests
    requires ChildQueues(w.pctxs, w.hctxs, w.busyHttp)
    ensures var w' := ActivateHttp(w, p, r); ChildQueues(w'.pctxs, w'.hctxs, w'.busyHttp)
  {
    LastNoDup(w.pctxs[p].free);
    HeadNoDup(w.pctxs[p].occupied, Last(w.pctxs[p].free));
  }

  /** A request gets its entry for a plugin context only when it has none: this is what keeps
      one entry per plugin context in its array. */
  lemma ActivateHttpRequests(w: World, p: Ref, r: ReqId)
    requires SpareHttp(w, p) && r in w.requests && Entry(w, r, p).None?
    requires Last(w.pctxs[p].free) in w.hctxs && w.hctxs[Last(w.pctxs[p].free)].parent == p
    requires Last(w.pctxs[p].free) !in w.busyHttp
    requires Requests(w.touched, w.requests, w.holder, w.hctxs, w.busyHttp)
    ensures var w' := ActivateHttp(w, p, r); Requests(w'.touched, w'.requests, w'.holder, w'.hctxs, w'.busyHttp)
  {
    var h := Last(w.pctxs[p].free);
    var a := w.requests[r];
    forall i, j | 0 <= i < j < |a + [h]| && (a + [h])[i] in w.hctxs && (a + [h])[j] in w.hctxs
      ensures w.hctxs[(a + [h])[i]].parent != w.hctxs[(a + [h])[j]].parent
    {
      assert (a + [h])[i] in a;
    }
  }

  lemma ActivateHttpKeeps(w: World, p: Ref, r: ReqId)
    requires Structure(w) && SpareHttp(w, p) && r in w.requests && Entry(w, r, p).None?
    ensures Structure(ActivateHttp(w, p, r))
  {
    assert Last(w.pctxs[p].free) in w.pctxs[p].free;
    ActivateHttpChildren(w, p, r);
    ActivateHttpRequests(w, p, r);
    ActivateHttpFrame(w, p, r);
    var w' := ActivateHttp(w, p, r);
    OthersKeep(w, w');
  }

  // ------------------------------------------------------------------------------------
  // Retiring an HTTP context

  lemma RetireHttpChildren(w: World, r: ReqId)
    requires HasFirst(w, r) && w.requests[r][0] in w.busyHttp
    requires ChildQueues(w.pctxs, w.hctxs, w.busyHttp)
    ensures var w' := RetireHttp(w, r); ChildQueues(w'.pctxs, w'.hctxs, w'.busyHttp)
  {
    var h := w.requests[r][0];
    var p := w.hctxs[h].parent;
    RemoveNoDup(w.pctxs[p].occupied, h);
    HeadNoDup(w.pctxs[p].free, h);
  }

  lemma RetireHttpRequests(w: World, r: ReqId)
    requires HasFirst(w, r)
    requires Requests(w.touched, w.requests, w.holder, w.hctxs, w.busyHttp)
    ensures var w' := RetireHttp(w, r); Requests(w'.touched, w'.requests, w'.holder, w'.hctxs, w'.busyHttp)
  {
    hide Requests;
    FirstIsRetired(w.touched, w.requests, w.holder, w.hctxs, w.busyHttp, r);
  }

  lemma FirstIsRetired(touched: set<ReqId>, requests: map<ReqId, seq<Ref>>, holder: map<Ref, ReqId>,
                       hctxs: map<Ref, HttpCtx>, busyHttp: set<Ref>, r: ReqId)
    requires Requests(touched, requests, holder, hctxs, busyHttp) && r in requests && requests[r] != []
    ensures Requests(touched, requests[r := requests[r][1..]], holder, hctxs, busyHttp - {requests[r][0]})
  {
    hide OnePerCtx;
    RestOnePerCtx(hctxs, requests[r]);
  }

  lemma RestOnePerCtx(hctxs: map<Ref, HttpCtx>, a: seq<Ref>)
    requires OnePerCtx(hctxs, a) && a != [] && forall h :: h in a ==> h in hctxs
    ensures OnePerCtx(hctxs, a[1..]) && a[0] !in a[1..]
    ensures forall h :: h in a <==> h == a[0] || h in a[1..]
  {
    assert a == [a[0]] + a[1..];
  }

  lemma RetireHttpKeeps(w: World, r: ReqId)
    requires Structure(w) && HasFirst(w, r)
    ensures Structure(RetireHttp(w, r))
  {
    hide ChildQueues, Pools, PluginQueues, Handles, Ids, Counters, Addresses, RetireHttp;
    assert w.requests[r][0] in w.requests[r];
    RetireHttpChildren(w, r);
    RetireHttpRequests(w, r);
    RetireHttpFrame(w, r);
    var w' := RetireHttp(w, r);
    OthersKeep(w, w');
  }
}
