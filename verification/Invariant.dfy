/**
 What holds of the records in every reachable state. Each clause looks only at the
 parts of the world it speaks about.
 */
module Invariant {
  import opened Common
  import opened Queues
  import opened Abi
  import opened Lifecycle

  /** Each plugin context is in exactly one of its plugin's two queues, exactly once: in
      `occupied` if it is in use and in `free` if it is not. */
  ghost predicate PluginQueues(plugins: map<Ref, Plugin>, pctxs: map<Ref, PluginCtx>, busy: set<Ref>) {
    && (forall p | p in pctxs :: pctxs[p].plugin in plugins)
    && (forall p | p in busy :: p in pctxs)
    && (forall pl | pl in plugins :: NoDup(plugins[pl].occupied) && NoDup(plugins[pl].free))
    && (forall pl, p {:trigger p in plugins[pl].occupied} | pl in plugins ::
          p in plugins[pl].occupied <==> p in pctxs && p in busy && pctxs[p].plugin == pl)
    && (forall pl, p {:trigger p in plugins[pl].free} | pl in plugins ::
          p in plugins[pl].free <==> p in pctxs && p !in busy && pctxs[p].plugin == pl)
  }

  /** The same for HTTP contexts, which live in the pool of their parent. */
  ghost predicate ChildQueues(pctxs: map<Ref, PluginCtx>, hctxs: map<Ref, HttpCtx>, busyHttp: set<Ref>) {
    && (forall h | h in hctxs :: hctxs[h].parent in pctxs && pctxs[hctxs[h].parent].pool == Some(hctxs[h].pool))
    && (forall h | h in busyHttp :: h in hctxs)
    && (forall p | p in pctxs :: NoDup(pctxs[p].occupied) && NoDup(pctxs[p].free))
    && (forall p, h {:trigger h in pctxs[p].occupied} | p in pctxs ::
          h in pctxs[p].occupied <==> h in hctxs && h in busyHttp && hctxs[h].parent == p)
    && (forall p, h {:trigger h in pctxs[p].free} | p in pctxs ::
          h in pctxs[p].free <==> h in hctxs && h !in busyHttp && hctxs[h].parent == p)
  }

  /** A pool is alive exactly while the context that created it holds it; a free context holds none. */
  ghost predicate Pools(pctxs: map<Ref, PluginCtx>, busy: set<Ref>, pools: map<Ref, Ref>) {
    && (forall p | p in pctxs && pctxs[p].pool.Some? ::
          p in busy && pctxs[p].pool.value in pools && pools[pctxs[p].pool.value] == p)
    && (forall q | q in pools :: pools[q] in pctxs && pctxs[pools[q]].pool == Some(q))
  }

  /** A request holds HTTP contexts in use, one per plugin context, and each HTTP context in
      use is held by exactly one request. */
  ghost predicate Requests(touched: set<ReqId>, requests: map<ReqId, seq<Ref>>, holder: map<Ref, ReqId>,
                           hctxs: map<Ref, HttpCtx>, busyHttp: set<Ref>) {
    && (forall r | r in requests :: r in touched && OnePerCtx(hctxs, requests[r]))
    && (forall r, h | r in requests && h in requests[r] :: h in hctxs && h in busyHttp && h in holder && holder[h] == r)
    && (forall h | h in busyHttp :: h in holder && holder[h] in requests && h in requests[holder[h]])
  }

  /** An unreleased handle names a record that is in use and not marked done, and conversely. */
  ghost predicate Handles(plugins: map<Ref, Plugin>, pctxs: map<Ref, PluginCtx>, busy: set<Ref>,
                          pluginHandles: set<Ref>, ctxHandles: set<Ref>) {
    && (forall pl | pl in pluginHandles :: pl in plugins)
    && (forall pl | pl in plugins :: plugins[pl].done <==> pl !in pluginHandles)
    && (forall p | p in ctxHandles :: p in busy)
    && (forall p | p in busy && p in pctxs :: pctxs[p].done <==> p !in ctxHandles)
  }

  ghost predicate Issued(plugins: map<Ref, Plugin>, minted: map<(Ref, nat), Record>, pl: Ref, id: nat, x: Record) {
    pl in plugins && 1 <= id <= plugins[pl].curCtxId && (pl, id) in minted && minted[(pl, id)] == x
  }

  /** Unless the counter of the plugin has wrapped, an id that was minted names one record for as
      long as the plugin lives, and no id beyond the counter was minted. */
  ghost predicate Ids(plugins: map<Ref, Plugin>, pctxs: map<Ref, PluginCtx>, hctxs: map<Ref, HttpCtx>,
                      minted: map<(Ref, nat), Record>, wrapped: set<Ref>) {
    && (forall p | p in pctxs && pctxs[p].plugin !in wrapped ::
          Issued(plugins, minted, pctxs[p].plugin, pctxs[p].id, CtxRecord(p)))
    && (forall h | h in hctxs && hctxs[h].parent in pctxs && pctxs[hctxs[h].parent].plugin !in wrapped ::
          Issued(plugins, minted, pctxs[hctxs[h].parent].plugin, hctxs[h].id, HttpRecord(h)))
    && (forall k | k in minted && k.0 in plugins && k.0 !in wrapped :: k.1 <= plugins[k.0].curCtxId)
  }

  ghost predicate Counters(plugins: map<Ref, Plugin>, minted: map<(Ref, nat), Record>, next: Ref) {
    && (forall pl | pl in plugins :: plugins[pl].curCtxId < UINT32)
    && (forall k | k in minted :: k.0 < next)
  }

  /** Each address below `next` is live in one place, or has been freed, once. */
  ghost predicate Addresses(plugins: map<Ref, Plugin>, pctxs: map<Ref, PluginCtx>, hctxs: map<Ref, HttpCtx>,
                            pools: map<Ref, Ref>, next: Ref, nextHttp: Ref, freed: seq<Ref>) {
    && (forall x | x in plugins :: x < next && x !in pctxs && x !in pools && x !in freed)
    && (forall x | x in pctxs :: x < next && x !in pools && x !in freed)
    && (forall x | x in pools :: x < next && x !in freed)
    && (forall x | x in freed :: x < next)
    && (forall x: Ref | x < next :: x in plugins || x in pctxs || x in pools || x in freed)
    && (forall h | h in hctxs :: h < nextHttp)
    && NoDup(freed)
  }

  ghost predicate Structure(w: World) {
    && PluginQueues(w.plugins, w.pctxs, w.busy)
    && ChildQueues(w.pctxs, w.hctxs, w.busyHttp)
    && Pools(w.pctxs, w.busy, w.pools)
    && Requests(w.touched, w.requests, w.holder, w.hctxs, w.busyHttp)
    && Handles(w.plugins, w.pctxs, w.busy, w.pluginHandles, w.ctxHandles)
    && Ids(w.plugins, w.pctxs, w.hctxs, w.minted, w.wrapped)
    && Counters(w.plugins, w.minted, w.next)
    && Addresses(w.plugins, w.pctxs, w.hctxs, w.pools, w.next, w.nextHttp, w.freed)
  }

  /** Every record that is kept is kept for a reason, apart from those in `exempt`: a context
      in use has a handle or a child in use, a plugin has a handle or a context in use. */
  ghost predicate Needed(w: World, exempt: set<Ref>) {
    && (forall p | p in w.busy && p in w.pctxs && p !in exempt :: !w.pctxs[p].done || w.pctxs[p].occupied != [])
    && (forall pl | pl in w.plugins && pl !in exempt :: !w.plugins[pl].done || w.plugins[pl].occupied != [])
  }

  /** The guest of a plugin whose counter has not wrapped knows every plugin context in use, */
  ghost predicate RootsKnown(live: map<(Ref, nat), LiveCtx>, pctxs: map<Ref, PluginCtx>, busy: set<Ref>,
                             wrapped: set<Ref>) {
    forall p | p in busy && p in pctxs && pctxs[p].plugin !in wrapped ::
      (pctxs[p].plugin, pctxs[p].id) in live && live[(pctxs[p].plugin, pctxs[p].id)] == LiveCtx(0, false)
  }

  /** every HTTP context in use, as a child of its parent, */
  ghost predicate StreamsKnown(live: map<(Ref, nat), LiveCtx>, pctxs: map<Ref, PluginCtx>,
                               hctxs: map<Ref, HttpCtx>, busyHttp: set<Ref>, wrapped: set<Ref>) {
    forall h | h in busyHttp && h in hctxs && hctxs[h].parent in pctxs && pctxs[hctxs[h].parent].plugin !in wrapped ::
      (pctxs[hctxs[h].parent].plugin, hctxs[h].id) in live
      && live[(pctxs[hctxs[h].parent].plugin, hctxs[h].id)] == LiveCtx(pctxs[hctxs[h].parent].id, false)
  }

  /** The record an id was minted for is in use and carries that id. */
  ghost predicate Names(x: Record, k: (Ref, nat), pctxs: map<Ref, PluginCtx>, busy: set<Ref>,
                        hctxs: map<Ref, HttpCtx>, busyHttp: set<Ref>) {
    match x
    case CtxRecord(p) => p in busy && p in pctxs && k == (pctxs[p].plugin, pctxs[p].id)
    case HttpRecord(h) =>
      && h in busyHttp && h in hctxs && hctxs[h].parent in pctxs
      && k == (pctxs[hctxs[h].parent].plugin, hctxs[h].id)
  }

  /** and nothing else. */
  ghost predicate OnlyInUse(live: map<(Ref, nat), LiveCtx>, minted: map<(Ref, nat), Record>,
                            pctxs: map<Ref, PluginCtx>, busy: set<Ref>, hctxs: map<Ref, HttpCtx>, busyHttp: set<Ref>,
                            wrapped: set<Ref>) {
    forall k | k in live :: k.0 !in wrapped && k in minted && Names(minted[k], k, pctxs, busy, hctxs, busyHttp)
  }

  ghost predicate Matches(t: Tracker, w: World) {
    && t.loaded == w.plugins.Keys
    && (forall pl | pl in t.unloaded :: pl < w.next && pl !in w.plugins)
    && RootsKnown(t.live, w.pctxs, w.busy, w.wrapped)
    && StreamsKnown(t.live, w.pctxs, w.hctxs, w.busyHttp, w.wrapped)
    && OnlyInUse(t.live, w.minted, w.pctxs, w.busy, w.hctxs, w.busyHttp, w.wrapped)
  }

  /** The calls without those that concern contexts of plugins whose counter has wrapped. */
  function Sane(w: World): seq<Call> {
    SaneCalls(w.calls, w.wrapped)
  }

  /** These calls are as the ABI allows. */
  ghost predicate Obeyed(w: World) {
    Replay(Sane(w)).Some? && Matches(Replay(Sane(w)).value, w)
  }

  /** Between entries no state is current or only a plugin's own, and no body is left behind;
      a context in use has its pool. */
  ghost predicate Quiet(w: World) {
    && (w.curState.Some? ==> w.curState.value.OfPlugin?)
    && (forall p | p in w.busy && p in w.pctxs :: w.pctxs[p].pool.Some? && w.pctxs[p].body.None?)
  }

  ghost predicate Inv(w: World) {
    Structure(w) && Needed(w, {}) && Obeyed(w) && Quiet(w)
  }
}
