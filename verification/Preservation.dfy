/**
 Each building block keeps each clause of the invariant. A lemma asks only for the clauses
 it needs, and is named after the block and the clause.
 */
module Preservation {
  import opened Common
  import opened Queues
  import opened Abi
  import opened Lifecycle
  import opened Invariant

  ghost predicate Fresh(w: World) {
    w.next !in w.plugins && w.next !in w.pctxs && w.next !in w.pools
  }

  lemma NextIdIsNew(cur: nat)
    requires cur < UINT32 && NextId(cur) != 0
    ensures NextId(cur) == cur + 1
  {
  }

  // ------------------------------------------------------------------------------------
  // Steps on single components, shared by several blocks

  /** pctxs2 holds the records of pctxs with their ids and plugins, possibly fewer of them. */
  ghost predicate SameNames(pctxs: map<Ref, PluginCtx>, pctxs2: map<Ref, PluginCtx>) {
    forall p | p in pctxs2 :: p in pctxs && pctxs2[p].id == pctxs[p].id && pctxs2[p].plugin == pctxs[p].plugin
  }

  ghost predicate SameCounters(plugins: map<Ref, Plugin>, plugins2: map<Ref, Plugin>) {
    forall pl | pl in plugins2 :: pl in plugins && plugins2[pl].curCtxId == plugins[pl].curCtxId
  }

  lemma IdsSurvive(plugins: map<Ref, Plugin>, plugins2: map<Ref, Plugin>,
                   pctxs: map<Ref, PluginCtx>, pctxs2: map<Ref, PluginCtx>,
                   hctxs: map<Ref, HttpCtx>, hctxs2: map<Ref, HttpCtx>, minted: map<(Ref, nat), Record>,
                   wrapped: set<Ref>)
    requires Ids(plugins, pctxs, hctxs, minted, wrapped)
    requires SameCounters(plugins, plugins2) && SameNames(pctxs, pctxs2)
    requires forall h | h in hctxs2 :: h in hctxs && hctxs2[h] == hctxs[h]
    requires forall p | p in pctxs2 :: pctxs2[p].plugin in plugins2
    ensures Ids(plugins2, pctxs2, hctxs2, minted, wrapped)
  {
  }

  lemma IdsMintCtx(plugins: map<Ref, Plugin>, pctxs: map<Ref, PluginCtx>, hctxs: map<Ref, HttpCtx>,
                   minted: map<(Ref, nat), Record>, wrapped: set<Ref>, wrapped2: set<Ref>,
                   pl: Ref, p: Ref, c: PluginCtx, q: Plugin)
    requires Ids(plugins, pctxs, hctxs, minted, wrapped) && wrapped <= wrapped2
    requires pl in plugins && c.plugin == pl && (pl !in wrapped2 ==> c.id == plugins[pl].curCtxId + 1 == q.curCtxId)
    requires p !in pctxs && forall h :: h in hctxs ==> hctxs[h].parent in pctxs
    ensures Ids(plugins[pl := q], pctxs[p := c], hctxs, minted[(pl, c.id) := CtxRecord(p)], wrapped2)
  {
  }

  lemma IdsMintHttp(plugins: map<Ref, Plugin>, pctxs: map<Ref, PluginCtx>, pctxs2: map<Ref, PluginCtx>,
                    hctxs: map<Ref, HttpCtx>, minted: map<(Ref, nat), Record>, wrapped: set<Ref>, wrapped2: set<Ref>,
                    h: Ref, c: HttpCtx, q: Plugin)
    requires Ids(plugins, pctxs, hctxs, minted, wrapped) && wrapped <= wrapped2
    requires pctxs.Keys == pctxs2.Keys && SameNames(pctxs, pctxs2)
    requires c.parent in pctxs && pctxs[c.parent].plugin in plugins
    requires pctxs[c.parent].plugin !in wrapped2 ==> c.id == plugins[pctxs[c.parent].plugin].curCtxId + 1 == q.curCtxId
    requires h !in hctxs
    ensures var pl := pctxs[c.parent].plugin;
      Ids(plugins[pl := q], pctxs2, hctxs[h := c], minted[(pl, c.id) := HttpRecord(h)], wrapped2)
  {
  }

  /** Moving a context from `occupied` to the head of `free`. */
  lemma ToFree(plugins: map<Ref, Plugin>, pctxs: map<Ref, PluginCtx>, pctxs2: map<Ref, PluginCtx>,
               busy: set<Ref>, p: Ref)
    requires PluginQueues(plugins, pctxs, busy)
    requires pctxs.Keys == pctxs2.Keys && SameNames(pctxs, pctxs2)
    requires p in busy && p in pctxs && pctxs[p].plugin in plugins
    ensures var pl := pctxs[p].plugin;
      var q := plugins[pl].(occupied := Remove(plugins[pl].occupied, p), free := InsertHead(plugins[pl].free, p));
      PluginQueues(plugins[pl := q], pctxs2, busy - {p})
  {
    RemoveNoDup(plugins[pctxs[p].plugin].occupied, p);
    HeadNoDup(plugins[pctxs[p].plugin].free, p);
  }

  /** Moving a context from the tail of `free` to the head of `occupied`. */
  lemma ToOccupied(plugins: map<Ref, Plugin>, pctxs: map<Ref, PluginCtx>, pctxs2: map<Ref, PluginCtx>,
                   busy: set<Ref>, pl: Ref)
    requires PluginQueues(plugins, pctxs, busy)
    requires pctxs.Keys == pctxs2.Keys && SameNames(pctxs, pctxs2)
    requires pl in plugins && plugins[pl].free != []
    ensures var p := Last(plugins[pl].free);
      var q := plugins[pl].(free := ButLast(plugins[pl].free), occupied := InsertHead(plugins[pl].occupied, p));
      PluginQueues(plugins[pl := q], pctxs2, busy + {p})
  {
    LastNoDup(plugins[pl].free);
    HeadNoDup(plugins[pl].occupied, Last(plugins[pl].free));
  }

  lemma PoolsShrink(pctxs: map<Ref, PluginCtx>, busy: set<Ref>, pools: map<Ref, Ref>, p: Ref)
    requires Pools(pctxs, busy, pools)
    requires p in pctxs && pctxs[p].pool.Some?
    ensures Pools(pctxs[p := pctxs[p].(pool := None, occupied := [], free := [])], busy - {p},
                  pools - {pctxs[p].pool.value})
  {
  }

  // ------------------------------------------------------------------------------------
  // Loading a plugin

  lemma AddPluginClauses(w: World, start: bool)
    requires Fresh(w)
    requires PluginQueues(w.plugins, w.pctxs, w.busy)
    requires Handles(w.plugins, w.pctxs, w.busy, w.pluginHandles, w.ctxHandles)
    ensures var w' := AddPlugin(w, start);
      && PluginQueues(w'.plugins, w'.pctxs, w'.busy)
      && Handles(w'.plugins, w'.pctxs, w'.busy, w'.pluginHandles, w'.ctxHandles)
  {
  }

  lemma AddPluginIds(w: World, start: bool)
    requires Fresh(w)
    requires Counters(w.plugins, w.minted, w.next)
    ensures var w' := AddPlugin(w, start);
      && Counters(w'.plugins, w'.minted, w'.next)
      && (Ids(w.plugins, w.pctxs, w.hctxs, w.minted, w.wrapped) ==>
        Ids(w'.plugins, w'.pctxs, w'.hctxs, w'.minted, w'.wrapped))
  {
  }

  lemma AddPluginKeeps(w: World, start: bool)
    requires Structure(w)
    ensures Structure(AddPlugin(w, start))
  {
    hide PluginQueues, ChildQueues, Pools, Requests, Handles, Ids;
    FreshInStructure(w);
    AddPluginClauses(w, start);
    AddPluginIds(w, start);
    AddPluginAddresses(w, start);
  }

  lemma FreshInStructure(w: World)
    requires Structure(w)
    ensures Fresh(w)
  {
  }

  lemma AddPluginAddresses(w: World, start: bool)
    requires Fresh(w) && Addresses(w.plugins, w.pctxs, w.hctxs, w.pools, w.next, w.nextHttp, w.freed)
    ensures var w' := AddPlugin(w, start);
            Addresses(w'.plugins, w'.pctxs, w'.hctxs, w'.pools, w'.next, w'.nextHttp, w'.freed)
  {
  }

  lemma AbortLoadAddresses(w: World, start: bool)
    requires Addresses(w.plugins, w.pctxs, w.hctxs, w.pools, w.next, w.nextHttp, w.freed)
    ensures var w' := AbortLoad(w, start);
      Addresses(w'.plugins, w'.pctxs, w'.hctxs, w'.pools, w'.next, w'.nextHttp, w'.freed)
  {
    AppendNoDup(w.freed, [w.next]);
  }

  lemma AbortLoadKeeps(w: World, start: bool)
    requires Structure(w)
    ensures Structure(AbortLoad(w, start))
  {
    AbortLoadAddresses(w, start);
  }

  // ------------------------------------------------------------------------------------
  // Taking a plugin context

  lemma TakeCtxQueues(w: World, pl: Ref)
    requires Fresh(w) && pl in w.plugins
    requires PluginQueues(w.plugins, w.pctxs, w.busy)
    ensures var w' := TakeCtx(w, pl); PluginQueues(w'.plugins, w'.pctxs, w'.busy)
  {
  }

  lemma TakeCtxHandles(w: World, pl: Ref)
    requires Fresh(w) && pl in w.plugins
    requires PluginQueues(w.plugins, w.pctxs, w.busy)
    requires Pools(w.pctxs, w.busy, w.pools)
    requires Handles(w.plugins, w.pctxs, w.busy, w.pluginHandles, w.ctxHandles)
    ensures var w' := TakeCtx(w, pl);
      && Pools(w'.pctxs, w'.busy, w'.pools)
      && Handles(w'.plugins, w'.pctxs, w'.busy, w'.pluginHandles, w'.ctxHandles)
  {
  }

  lemma TakeCtxChildren(w: World, pl: Ref)
    requires Fresh(w) && pl in w.plugins
    requires PluginQueues(w.plugins, w.pctxs, w.busy)
    requires ChildQueues(w.pctxs, w.hctxs, w.busyHttp)
    ensures var w' := TakeCtx(w, pl); ChildQueues(w'.pctxs, w'.hctxs, w'.busyHttp)
  {
  }

  lemma TakeCtxCounters(w: World, pl: Ref)
    requires pl in w.plugins && pl < w.next
    requires PluginQueues(w.plugins, w.pctxs, w.busy)
    requires Counters(w.plugins, w.minted, w.next)
    ensures var w' := TakeCtx(w, pl); Counters(w'.plugins, w'.minted, w'.next)
  {
  }

  lemma TakeCtxIds(w: World, pl: Ref)
    requires Fresh(w) && pl in w.plugins && w.plugins[pl].curCtxId < UINT32
    requires PluginQueues(w.plugins, w.pctxs, w.busy)
    requires forall h :: h in w.hctxs ==> w.hctxs[h].parent in w.pctxs
    requires Ids(w.plugins, w.pctxs, w.hctxs, w.minted, w.wrapped)
    ensures var w' := TakeCtx(w, pl); Ids(w'.plugins, w'.pctxs, w'.hctxs, w'.minted, w'.wrapped)
  {
    if w.plugins[pl].free == [] {
      var w' := TakeCtx(w, pl);
      if NextId(w.plugins[pl].curCtxId) != 0 {
        NextIdIsNew(w.plugins[pl].curCtxId);
      }
      IdsMintCtx(w.plugins, w.pctxs, w.hctxs, w.minted, w.wrapped, w'.wrapped, pl, w.next, w'.pctxs[w.next],
                 w'.plugins[pl]);
    }
  }

  lemma TakeCtxAddresses(w: World, pl: Ref)
    requires pl in w.plugins
    requires PluginQueues(w.plugins, w.pctxs, w.busy)
    requires Addresses(w.plugins, w.pctxs, w.hctxs, w.pools, w.next, w.nextHttp, w.freed)
    ensures var w' := TakeCtx(w, pl);
      Addresses(w'.plugins, w'.pctxs, w'.hctxs, w'.pools, w'.next, w'.nextHttp, w'.freed)
  {
  }

  lemma TakeCtxKeeps(w: World, pl: Ref)
    requires Structure(w) && pl in w.plugins
    ensures Structure(TakeCtx(w, pl))
  {
    TakeCtxQueues(w, pl);
    TakeCtxHandles(w, pl);
    TakeCtxChildren(w, pl);
    TakeCtxCounters(w, pl);
    TakeCtxIds(w, pl);
    TakeCtxAddresses(w, pl);
  }

  // ------------------------------------------------------------------------------------
  // Putting a plugin context back or to use

  lemma RotateCtxQueues(w: World, pl: Ref)
    requires Spare(w, pl)
    requires PluginQueues(w.plugins, w.pctxs, w.busy)
    ensures var w' := RotateCtx(w, pl); PluginQueues(w'.plugins, w'.pctxs, w'.busy)
  {
    LastNoDup(w.plugins[pl].free);
  }

  lemma RotateCtxChildren(w: World, pl: Ref)
    requires Spare(w, pl)
    requires ChildQueues(w.pctxs, w.hctxs, w.busyHttp)
    ensures var w' := RotateCtx(w, pl); ChildQueues(w'.pctxs, w'.hctxs, w'.busyHttp)
  {
  }

  lemma RotateCtxHandles(w: World, pl: Ref)
    requires Spare(w, pl) && Last(w.plugins[pl].free) !in w.busy
    requires Pools(w.pctxs, w.busy, w.pools)
    requires Handles(w.plugins, w.pctxs, w.busy, w.pluginHandles, w.ctxHandles)
    ensures var w' := RotateCtx(w, pl);
      && Pools(w'.pctxs, w'.busy, w'.pools)
      && Handles(w'.plugins, w'.pctxs, w'.busy, w'.pluginHandles, w'.ctxHandles)
  {
  }

  lemma RotateCtxIds(w: World, pl: Ref)
    requires Spare(w, pl)
    requires PluginQueues(w.plugins, w.pctxs, w.busy)
    requires Ids(w.plugins, w.pctxs, w.hctxs, w.minted, w.wrapped)
    ensures var w' := RotateCtx(w, pl); Ids(w'.plugins, w'.pctxs, w'.hctxs, w'.minted, w'.wrapped)
  {
    var w' := RotateCtx(w, pl);
    IdsSurvive(w.plugins, w'.plugins, w.pctxs, w'.pctxs, w.hctxs, w'.hctxs, w.minted, w.wrapped);
  }

  lemma RotateCtxAddresses(w: World, pl: Ref)
    requires Spare(w, pl)
    requires Counters(w.plugins, w.minted, w.next)
    requires Addresses(w.plugins, w.pctxs, w.hctxs, w.pools, w.next, w.nextHttp, w.freed)
    ensures var w' := RotateCtx(w, pl);
      && Counters(w'.plugins, w'.minted, w'.next)
      && Addresses(w'.plugins, w'.pctxs, w'.hctxs, w'.pools, w'.next, w'.nextHttp, w'.freed)
  {
  }

  lemma RotateCtxKeeps(w: World, pl: Ref)
    requires Structure(w) && Spare(w, pl)
    ensures Structure(RotateCtx(w, pl))
  {
    assert Last(w.plugins[pl].free) in w.plugins[pl].free;
    RotateCtxQueues(w, pl);
    RotateCtxChildren(w, pl);
    RotateCtxHandles(w, pl);
    RotateCtxIds(w, pl);
    RotateCtxAddresses(w, pl);
  }

  lemma ActivateCtxQueues(w: World, pl: Ref, poolOk: bool)
    requires Spare(w, pl)
    requires PluginQueues(w.plugins, w.pctxs, w.busy)
    ensures var w' := ActivateCtx(w, pl, poolOk); PluginQueues(w'.plugins, w'.pctxs, w'.busy)
  {
    ToOccupied(w.plugins, w.pctxs, ActivateCtx(w, pl, poolOk).pctxs, w.busy, pl);
  }

  lemma ActivateCtxChildren(w: World, pl: Ref, poolOk: bool)
    requires Spare(w, pl) && w.pctxs[Last(w.plugins[pl].free)].pool.None?
    requires ChildQueues(w.pctxs, w.hctxs, w.busyHttp)
    ensures var w' := ActivateCtx(w, pl, poolOk); ChildQueues(w'.pctxs, w'.hctxs, w'.busyHttp)
  {
  }

  lemma ActivateCtxPools(w: World, pl: Ref, poolOk: bool)
    requires Spare(w, pl) && w.pctxs[Last(w.plugins[pl].free)].pool.None? && Fresh(w)
    requires Pools(w.pctxs, w.busy, w.pools)
    ensures var w' := ActivateCtx(w, pl, poolOk); Pools(w'.pctxs, w'.busy, w'.pools)
  {
  }

  lemma ActivateCtxHandles(w: World, pl: Ref, poolOk: bool)
    requires Spare(w, pl)
    requires Handles(w.plugins, w.pctxs, w.busy, w.pluginHandles, w.ctxHandles)
    ensures var w' := ActivateCtx(w, pl, poolOk);
      Handles(w'.plugins, w'.pctxs, w'.busy, w'.pluginHandles, w'.ctxHandles)
  {
  }

  lemma ActivateCtxIds(w: World, pl: Ref, poolOk: bool)
    requires Spare(w, pl)
    requires PluginQueues(w.plugins, w.pctxs, w.busy)
    requires Ids(w.plugins, w.pctxs, w.hctxs, w.minted, w.wrapped)
    ensures var w' := ActivateCtx(w, pl, poolOk); Ids(w'.plugins, w'.pctxs, w'.hctxs, w'.minted, w'.wrapped)
  {
    var w' := ActivateCtx(w, pl, poolOk);
    IdsSurvive(w.plugins, w'.plugins, w.pctxs, w'.pctxs, w.hctxs, w'.hctxs, w.minted, w.wrapped);
  }

  lemma ActivateCtxCounters(w: World, pl: Ref, poolOk: bool)
    requires Spare(w, pl)
    requires Counters(w.plugins, w.minted, w.next)
    ensures var w' := ActivateCtx(w, pl, poolOk); Counters(w'.plugins, w'.minted, w'.next)
  {
  }

  lemma ActivateCtxAddresses(w: World, pl: Ref, poolOk: bool)
    requires Spare(w, pl)
    requires Addresses(w.plugins, w.pctxs, w.hctxs, w.pools, w.next, w.nextHttp, w.freed)
    ensures var w' := ActivateCtx(w, pl, poolOk);
      Addresses(w'.plugins, w'.pctxs, w'.hctxs, w'.pools, w'.next, w'.nextHttp, w'.freed)
  {
  }

  lemma ActivateCtxKeeps(w: World, pl: Ref, poolOk: bool)
    requires Structure(w) && Spare(w, pl)
    ensures Structure(ActivateCtx(w, pl, poolOk))
  {
    assert Last(w.plugins[pl].free) in w.plugins[pl].free;
    ActivateCtxQueues(w, pl, poolOk);
    ActivateCtxChildren(w, pl, poolOk);
    ActivateCtxPools(w, pl, poolOk);
    ActivateCtxHandles(w, pl, poolOk);
    ActivateCtxCounters(w, pl, poolOk);
    ActivateCtxIds(w, pl, poolOk);
    ActivateCtxAddresses(w, pl, poolOk);
  }

  // ------------------------------------------------------------------------------------
  // Retiring a plugin context

  /** A context in use that neither a handle nor a child keeps. */
  ghost predicate Idle(w: World, p: Ref) {
    OwnedCtx(w, p) && p in w.busy && w.pctxs[p].occupied == [] && w.pctxs[p].done
  }

  lemma RetireCtxQueues(w: World, p: Ref)
    requires Idle(w, p)
    requires PluginQueues(w.plugins, w.pctxs, w.busy)
    ensures var w' := RetireCtx(w, p); PluginQueues(w'.plugins, w'.pctxs, w'.busy)
  {
    ToFree(w.plugins, w.pctxs, RetireCtx(w, p).pctxs, w.busy, p);
  }

  /** The HTTP contexts that disappear with the pool are exactly the children of the context. */
  lemma RetireCtxTakesChildren(w: World, p: Ref)
    requires Idle(w, p)
    requires ChildQueues(w.pctxs, w.hctxs, w.busyHttp)
    requires Pools(w.pctxs, w.busy, w.pools)
    ensures forall h :: h in RetireCtx(w, p).hctxs <==> h in w.hctxs && w.hctxs[h].parent != p
    ensures forall h :: h in RetireCtx(w, p).hctxs ==> RetireCtx(w, p).hctxs[h] == w.hctxs[h]
    ensures forall h :: h in w.busyHttp ==> h in RetireCtx(w, p).hctxs
  {
    forall h | h in w.busyHttp
      ensures w.hctxs[h].parent != p
    {
      assert h !in w.pctxs[p].occupied;
    }
  }

  lemma RetireCtxChildren(w: World, p: Ref)
    requires Idle(w, p)
    requires ChildQueues(w.pctxs, w.hctxs, w.busyHttp)
    requires Pools(w.pctxs, w.busy, w.pools)
    ensures var w' := RetireCtx(w, p); ChildQueues(w'.pctxs, w'.hctxs, w'.busyHttp)
  {
    RetireCtxTakesChildren(w, p);
  }

  lemma RetireCtxPools(w: World, p: Ref)
    requires Idle(w, p)
    requires Pools(w.pctxs, w.busy, w.pools)
    ensures var w' := RetireCtx(w, p); Pools(w'.pctxs, w'.busy, w'.pools)
  {
    if w.pctxs[p].pool.Some? {
      PoolsShrink(w.pctxs, w.busy, w.pools, p);
    }
  }

  lemma RetireCtxRequests(w: World, p: Ref)
    requires Idle(w, p)
    requires ChildQueues(w.pctxs, w.hctxs, w.busyHttp)
    requires Pools(w.pctxs, w.busy, w.pools)
    requires Requests(w.touched, w.requests, w.holder, w.hctxs, w.busyHttp)
    ensures var w' := RetireCtx(w, p); Requests(w'.touched, w'.requests, w'.holder, w'.hctxs, w'.busyHttp)
  {
    RetireCtxTakesChildren(w, p);
  }

  lemma RetireCtxHandles(w: World, p: Ref)
    requires Idle(w, p)
    requires Handles(w.plugins, w.pctxs, w.busy, w.pluginHandles, w.ctxHandles)
    ensures var w' := RetireCtx(w, p);
      Handles(w'.plugins, w'.pctxs, w'.busy, w'.pluginHandles, w'.ctxHandles)
  {
  }

  lemma DestroyPoolNames(w: World, p: Ref)
    requires OwnedCtx(w, p)
    ensures var w' := DestroyPool(w, p);
      && w'.plugins == w.plugins && w'.minted == w.minted && w'.wrapped == w.wrapped && SameNames(w.pctxs, w'.pctxs)
      && forall h :: h in w'.hctxs ==> h in w.hctxs && w'.hctxs[h] == w.hctxs[h]
  {
  }

  lemma RetireCtxIds(w: World, p: Ref)
    requires Idle(w, p)
    requires PluginQueues(w.plugins, w.pctxs, w.busy)
    requires Ids(w.plugins, w.pctxs, w.hctxs, w.minted, w.wrapped)
    ensures var w' := RetireCtx(w, p); Ids(w'.plugins, w'.pctxs, w'.hctxs, w'.minted, w'.wrapped)
  {
    hide Ids, DestroyPool;
    DestroyPoolNames(w, p);
    var w' := RetireCtx(w, p);
    IdsSurvive(w.plugins, w'.plugins, w.pctxs, w'.pctxs, w.hctxs, w'.hctxs, w.minted, w.wrapped);
  }

  lemma RetireCtxCounters(w: World, p: Ref)
    requires Idle(w, p)
    requires Counters(w.plugins, w.minted, w.next)
    ensures var w' := RetireCtx(w, p); Counters(w'.plugins, w'.minted, w'.next)
  {
  }

  lemma RetireCtxAddresses(w: World, p: Ref)
    requires Idle(w, p)
    requires Pools(w.pctxs, w.busy, w.pools)
    requires Addresses(w.plugins, w.pctxs, w.hctxs, w.pools, w.next, w.nextHttp, w.freed)
    ensures var w' := RetireCtx(w, p);
      Addresses(w'.plugins, w'.pctxs, w'.hctxs, w'.pools, w'.next, w'.nextHttp, w'.freed)
  {
    if w.pctxs[p].pool.Some? {
      AppendNoDup(w.freed, [w.pctxs[p].pool.value]);
    }
  }

  lemma RetireCtxKeeps(w: World, p: Ref)
    requires Structure(w) && Idle(w, p)
    ensures Structure(RetireCtx(w, p))
  {
    RetireCtxQueues(w, p);
    RetireCtxChildren(w, p);
    RetireCtxPools(w, p);
    RetireCtxRequests(w, p);
    RetireCtxHandles(w, p);
    RetireCtxCounters(w, p);
    RetireCtxIds(w, p);
    RetireCtxAddresses(w, p);
  }

  // ------------------------------------------------------------------------------------
  // Freeing a plugin

  /** A plugin that neither a handle nor a context keeps. */
  ghost predicate Unused(w: World, pl: Ref) {
    pl in w.plugins && w.plugins[pl].occupied == [] && w.plugins[pl].done
  }

  /** The contexts freed with the plugin are all of its contexts, and none of them is in use. */
  lemma DiscardTakesContexts(w: World, pl: Ref)
    requires Unused(w, pl)
    requires PluginQueues(w.plugins, w.pctxs, w.busy)
    ensures forall p :: p in DiscardPlugin(w, pl).pctxs <==> p in w.pctxs && w.pctxs[p].plugin != pl
    ensures forall p :: p in DiscardPlugin(w, pl).pctxs ==> DiscardPlugin(w, pl).pctxs[p] == w.pctxs[p]
    ensures forall p :: p in w.busy ==> p in DiscardPlugin(w, pl).pctxs
  {
    forall p | p in w.pctxs && w.pctxs[p].plugin == pl
      ensures p !in w.busy && p in w.plugins[pl].free
    {
      assert p !in w.plugins[pl].occupied;
    }
  }

  lemma DiscardPluginQueues(w: World, pl: Ref)
    requires Unused(w, pl)
    requires PluginQueues(w.plugins, w.pctxs, w.busy)
    ensures var w' := DiscardPlugin(w, pl); PluginQueues(w'.plugins, w'.pctxs, w'.busy)
  {
    DiscardTakesContexts(w, pl);
  }

  lemma DiscardPluginChildren(w: World, pl: Ref)
    requires Unused(w, pl)
    requires PluginQueues(w.plugins, w.pctxs, w.busy)
    requires ChildQueues(w.pctxs, w.hctxs, w.busyHttp)
    requires Pools(w.pctxs, w.busy, w.pools)
    ensures var w' := DiscardPlugin(w, pl);
      ChildQueues(w'.pctxs, w'.hctxs, w'.busyHttp) && Pools(w'.pctxs, w'.busy, w'.pools)
  {
    DiscardTakesContexts(w, pl);
  }

  lemma DiscardPluginHandles(w: World, pl: Ref)
    requires Unused(w, pl)
    requires PluginQueues(w.plugins, w.pctxs, w.busy)
    requires Handles(w.plugins, w.pctxs, w.busy, w.pluginHandles, w.ctxHandles)
    requires Counters(w.plugins, w.minted, w.next)
    ensures var w' := DiscardPlugin(w, pl);
      && Handles(w'.plugins, w'.pctxs, w'.busy, w'.pluginHandles, w'.ctxHandles)
      && Counters(w'.plugins, w'.minted, w'.next)
  {
    DiscardTakesContexts(w, pl);
  }

  lemma DiscardPluginIds(w: World, pl: Ref)
    requires Unused(w, pl)
    requires PluginQueues(w.plugins, w.pctxs, w.busy)
    requires Ids(w.plugins, w.pctxs, w.hctxs, w.minted, w.wrapped)
    ensures var w' := DiscardPlugin(w, pl); Ids(w'.plugins, w'.pctxs, w'.hctxs, w'.minted, w'.wrapped)
  {
    var w' := DiscardPlugin(w, pl);
    DiscardTakesContexts(w, pl);
    IdsSurvive(w.plugins, w'.plugins, w.pctxs, w'.pctxs, w.hctxs, w'.hctxs, w.minted, w.wrapped);
  }

  /** Everything that is freed with the plugin was alive, and is freed once. */
  lemma DiscardFreesOnce(w: World, pl: Ref)
    requires Unused(w, pl)
    requires PluginQueues(w.plugins, w.pctxs, w.busy)
    requires Addresses(w.plugins, w.pctxs, w.hctxs, w.pools, w.next, w.nextHttp, w.freed)
    ensures NoDup(DiscardPlugin(w, pl).freed)
  {
    var q := Reverse(w.plugins[pl].free);
    ReverseNoDup(w.plugins[pl].free);
    AppendNoDup(w.freed, q);
    AppendNoDup(w.freed + q, [pl]);
  }

  lemma DiscardPluginAddresses(w: World, pl: Ref)
    requires Unused(w, pl)
    requires PluginQueues(w.plugins, w.pctxs, w.busy)
    requires Addresses(w.plugins, w.pctxs, w.hctxs, w.pools, w.next, w.nextHttp, w.freed)
    ensures var w' := DiscardPlugin(w, pl);
      Addresses(w'.plugins, w'.pctxs, w'.hctxs, w'.pools, w'.next, w'.nextHttp, w'.freed)
  {
    DiscardTakesContexts(w, pl);
    DiscardFreesOnce(w, pl);
  }

  lemma DiscardPluginKeeps(w: World, pl: Ref)
    requires Structure(w) && Unused(w, pl)
    ensures Structure(DiscardPlugin(w, pl))
  {
    DiscardPluginQueues(w, pl);
    DiscardPluginChildren(w, pl);
    DiscardPluginHandles(w, pl);
    DiscardPluginIds(w, pl);
    DiscardPluginAddresses(w, pl);
  }
}
