/**
 The records the module keeps for plugins, plugin contexts and HTTP contexts, and
 what each entry point does to them.

 The heap is explicit: a record is an entry of a map from addresses, freeing it
 removes the entry, and addresses are never handed out twice. Reading through a
 dangling pointer is a lookup outside the map, which Dafny rejects.
 */
module Lifecycle {
  import opened Common
  import opened Queues
  import opened Abi

  type ReqId = nat

  /** ngx_http_wasm_plugin_t. The VM instance is allocated and freed with it. */
  datatype Plugin = Plugin(curCtxId: nat, occupied: seq<Ref>, free: seq<Ref>, done: bool)

  /** ngx_http_wasm_plugin_ctx_t. `body` is the body of its state, which lives in the pool. */
  datatype PluginCtx = PluginCtx(id: nat, plugin: Ref, pool: Option<Ref>,
                                 occupied: seq<Ref>, free: seq<Ref>, done: bool,
                                 body: Option<Bytes>)

  /** ngx_http_wasm_http_ctx_t; `pool` is the pool the record was allocated from. */
  datatype HttpCtx = HttpCtx(id: nat, parent: Ref, pool: Ref)

  /** What an id was minted for. */
  datatype Record = CtxRecord(p: Ref) | HttpRecord(h: Ref)

  /** `pools` maps a live pool to the plugin context that created it. `touched` holds the
      requests with a module context, whose cleanup handler has still to run, and `requests`
      the http_ctxs array of those that have one. The two
      handle sets are the Lua objects whose finalizer has not run yet. The
      last seven are history: the plugin and HTTP contexts that are in use, the
      record each id of each plugin was minted for, the request each HTTP context
      was last given to, what ngx_free and ngx_destroy_pool were given,
      the plugins whose cur_ctx_id++ has wrapped to 0, and what the guests were called with. */
  datatype World = World(plugins: map<Ref, Plugin>, pctxs: map<Ref, PluginCtx>,
                         hctxs: map<Ref, HttpCtx>, pools: map<Ref, Ref>,
                         touched: set<ReqId>, requests: map<ReqId, seq<Ref>>,
                         pluginHandles: set<Ref>, ctxHandles: set<Ref>,
                         curState: Option<StateOwner>,
                         next: Ref, nextHttp: Ref,
                         busy: set<Ref>, busyHttp: set<Ref>,
                         minted: map<(Ref, nat), Record>, holder: map<Ref, ReqId>,
                         freed: seq<Ref>, wrapped: set<Ref>, calls: seq<Call>)

  const Empty := World(map[], map[], map[], map[], {}, map[], {}, {}, None, 0, 0,
                       {}, {}, map[], map[], [], {}, [])

  // ------------------------------------------------------------------------------------
  // Guest calls and the current state

  /** Whether the record cur_state points to is still allocated. */
  predicate StateLive(w: World) {
    match w.curState
    case None => true
    case Some(OfPlugin(pl)) => pl in w.plugins
    case Some(OfCtx(_, p)) => p in w.pctxs && w.pctxs[p].pool.Some?
  }

  /** What ngx_http_wasm_get_body would show; a plugin's own state never gets a body. */
  function VisibleBody(w: World): Option<Bytes> {
    match w.curState
    case Some(OfCtx(_, p)) => if p in w.pctxs then w.pctxs[p].body else None
    case _ => None
  }

  /** Calls one exported function of a plugin. */
  function Emit(w: World, pl: Ref, what: What): World {
    w.(calls := w.calls + [Call(pl, what, w.curState, StateLive(w), VisibleBody(w))])
  }

  function SetState(w: World, owner: StateOwner): World {
    w.(curState := Some(owner))
  }

  /** ngx_http_wasm_set_state(NULL): clears the body of the state it leaves. */
  function ClearState(w: World): World {
    var w' := if w.curState.Some? && w.curState.value.OfCtx? && w.curState.value.ctx in w.pctxs then
                var p := w.curState.value.ctx;
                w.(pctxs := w.pctxs[p := w.pctxs[p].(body := None)])
              else w;
    w'.(curState := None)
  }

  // ------------------------------------------------------------------------------------
  // Building blocks: each is the net effect of one stretch of an entry point.

  /** cur_ctx_id++ on a uint32_t. */
  function NextId(cur: nat): nat {
    (cur + 1) % UINT32
  }

  predicate OwnedCtx(w: World, p: Ref) {
    p in w.pctxs && w.pctxs[p].plugin in w.plugins
  }

  function AddPlugin(w: World, start: bool): World {
    Emit(w, w.next, Loaded(start)).(plugins := w.plugins[w.next := Plugin(0, [], [], false)],
                             pluginHandles := w.pluginHandles + {w.next},
                             next := w.next + 1)
  }

  /** A VM that is loaded and unloaded again because _start or the allocation failed. */
  function AbortLoad(w: World, start: bool): World {
    Emit(Emit(w, w.next, Loaded(start)), w.next, Unloaded).(next := w.next + 1, freed := w.freed + [w.next])
  }

  /** The context record on_configure works on: a recycled one, or the one it mints. */
  function NextCtx(w: World, pl: Ref): Ref
    requires pl in w.plugins
  {
    if w.plugins[pl].free != [] then Last(w.plugins[pl].free) else w.next
  }

  /** Makes sure the free queue of a plugin is not empty, minting a record and an id if it is. */
  function TakeCtx(w: World, pl: Ref): (w': World)
    requires pl in w.plugins
    requires forall p :: p in w.plugins[pl].free ==> p in w.pctxs && w.pctxs[p].plugin == pl
    ensures pl in w'.plugins && w'.plugins[pl].free != [] && Last(w'.plugins[pl].free) == NextCtx(w, pl)
    ensures NextCtx(w, pl) in w'.pctxs && w'.pctxs[NextCtx(w, pl)].plugin == pl
  {
    assert w.plugins[pl].free != [] ==> NextCtx(w, pl) in w.plugins[pl].free;
    if w.plugins[pl].free != [] then w
    else
      var id := NextId(w.plugins[pl].curCtxId);
      w.(pctxs := w.pctxs[w.next := PluginCtx(id, pl, None, [], [], false, None)],
         plugins := w.plugins[pl := w.plugins[pl].(curCtxId := id, free := [w.next])],
         next := w.next + 1,
         minted := w.minted[(pl, id) := CtxRecord(w.next)],
         wrapped := if id == 0 then w.wrapped + {pl} else w.wrapped)
  }

  /** The record at the end of the free queue goes back to its head, to be used again. */
  function RotateCtx(w: World, pl: Ref): World
    requires pl in w.plugins && w.plugins[pl].free != [] && Last(w.plugins[pl].free) in w.pctxs
  {
    var q := w.plugins[pl].free;
    var p := Last(q);
    w.(plugins := w.plugins[pl := w.plugins[pl].(free := InsertHead(ButLast(q), p))],
       pctxs := w.pctxs[p := w.pctxs[p].(done := false)])
  }

  /** The record at the end of the free queue becomes occupied, with a new pool if there is
      memory for one. Its handle is held by on_configure until it is returned or deleted. */
  function ActivateCtx(w: World, pl: Ref, poolOk: bool): World
    requires pl in w.plugins && w.plugins[pl].free != [] && Last(w.plugins[pl].free) in w.pctxs
  {
    var q := w.plugins[pl].free;
    var p := Last(q);
    var w' := w.(plugins := w.plugins[pl := w.plugins[pl].(free := ButLast(q),
                                                           occupied := InsertHead(w.plugins[pl].occupied, p))],
                 ctxHandles := w.ctxHandles + {p},
                 busy := w.busy + {p});
    if poolOk then
      w'.(pctxs := w.pctxs[p := w.pctxs[p].(done := false, pool := Some(w.next))],
          pools := w.pools[w.next := p],
          next := w.next + 1)
    else
      w'.(pctxs := w.pctxs[p := w.pctxs[p].(done := false)])
  }

  /** ngx_destroy_pool of a context's pool, which takes the HTTP contexts allocated in it along. */
  function DestroyPool(w: World, p: Ref): World
    requires p in w.pctxs
  {
    match w.pctxs[p].pool
    case None => w
    case Some(pool) =>
      w.(pools := w.pools - {pool},
         freed := w.freed + [pool],
         hctxs := map h | h in w.hctxs && w.hctxs[h].pool != pool :: w.hctxs[h],
         pctxs := w.pctxs[p := w.pctxs[p].(pool := None, occupied := [], free := [])])
  }

  /** The plugin context leaves the occupied queue, its guest side is deleted and its pool destroyed. */
  function RetireCtx(w: World, p: Ref): World
    requires OwnedCtx(w, p)
  {
    var pl := w.pctxs[p].plugin;
    var id := w.pctxs[p].id;
    DestroyPool(w, p).(plugins := w.plugins[pl := w.plugins[pl].(occupied := Remove(w.plugins[pl].occupied, p),
                                                                 free := InsertHead(w.plugins[pl].free, p))],
                       busy := w.busy - {p},
                       calls := Emit(Emit(w, pl, OnDone(id)), pl, OnDelete(id)).calls)
  }

  /** A map without the keys in a queue. */
  function Without<T>(m: map<Ref, T>, q: seq<Ref>): map<Ref, T> {
    map x | x in m && x !in q :: m[x]
  }

  /** The VM is unloaded and the plugin is freed together with its free contexts, last one first. */
  function DiscardPlugin(w: World, pl: Ref): World
    requires pl in w.plugins
  {
    var q := w.plugins[pl].free;
    Emit(w, pl, Unloaded).(plugins := w.plugins - {pl},
                           pctxs := Without(w.pctxs, q),
                           freed := w.freed + Reverse(q) + [pl])
  }

  /** Makes sure the free queue of a plugin context is not empty. */
  function TakeHttp(w: World, p: Ref): World
    requires OwnedCtx(w, p) && w.pctxs[p].pool.Some?
  {
    if w.pctxs[p].free != [] then w
    else
      var pl := w.pctxs[p].plugin;
      var id := NextId(w.plugins[pl].curCtxId);
      w.(hctxs := w.hctxs[w.nextHttp := HttpCtx(id, p, w.pctxs[p].pool.value)],
         pctxs := w.pctxs[p := w.pctxs[p].(free := [w.nextHttp])],
         plugins := w.plugins[pl := w.plugins[pl].(curCtxId := id)],
         nextHttp := w.nextHttp + 1,
         minted := w.minted[(pl, id) := HttpRecord(w.nextHttp)],
         wrapped := if id == 0 then w.wrapped + {pl} else w.wrapped)
  }

  function RotateHttp(w: World, p: Ref): World
    requires p in w.pctxs && w.pctxs[p].free != []
  {
    var q := w.pctxs[p].free;
    w.(pctxs := w.pctxs[p := w.pctxs[p].(free := InsertHead(ButLast(q), Last(q)))])
  }

  function ActivateHttp(w: World, p: Ref, r: ReqId): World
    requires p in w.pctxs && w.pctxs[p].free != [] && r in w.requests
  {
    var q := w.pctxs[p].free;
    w.(pctxs := w.pctxs[p := w.pctxs[p].(free := ButLast(q), occupied := InsertHead(w.pctxs[p].occupied, Last(q)))],
       requests := w.requests[r := w.requests[r] + [Last(q)]],
       busyHttp := w.busyHttp + {Last(q)},
       holder := w.holder[Last(q) := r])
  }

  predicate HasFirst(w: World, r: ReqId) {
    && r in w.requests && w.requests[r] != []
    && w.requests[r][0] in w.hctxs
    && OwnedCtx(w, w.hctxs[w.requests[r][0]].parent)
  }

  /** The first HTTP context of a request's array leaves the occupied queue and is deleted in the guest. */
  function RetireHttp(w: World, r: ReqId): World
    requires HasFirst(w, r)
  {
    var h := w.requests[r][0];
    var p := w.hctxs[h].parent;
    var pl := w.pctxs[p].plugin;
    var id := w.hctxs[h].id;
    w.(pctxs := w.pctxs[p := w.pctxs[p].(occupied := Remove(w.pctxs[p].occupied, h),
                                         free := InsertHead(w.pctxs[p].free, h))],
       requests := w.requests[r := w.requests[r][1..]],
       busyHttp := w.busyHttp - {h},
       calls := Emit(Emit(w, pl, OnDone(id)), pl, OnDelete(id)).calls)
  }

  // ------------------------------------------------------------------------------------
  // Entry points

  /** ngx_http_wasm_free_plugin. */
  function FreePlugin(w: World, pl: Ref): World
    requires pl in w.plugins
  {
    if w.plugins[pl].occupied != [] then w else DiscardPlugin(w, pl)
  }

  /** ngx_http_wasm_free_plugin_ctx. */
  function FreeCtx(w: World, p: Ref): World
    requires OwnedCtx(w, p)
  {
    if w.pctxs[p].occupied != [] then w
    else
      var w' := RetireCtx(w, p);
      if w.plugins[w.pctxs[p].plugin].done then FreePlugin(w', w.pctxs[p].plugin) else w'
  }

  /** ngx_http_wasm_unload_plugin, run by the finalizer of a plugin handle. */
  function Unload(w: World, pl: Ref): World
    requires pl in w.plugins
  {
    FreePlugin(w.(plugins := w.plugins[pl := w.plugins[pl].(done := true)],
                  pluginHandles := w.pluginHandles - {pl}), pl)
  }

  /** ngx_http_wasm_delete_plugin_ctx, run by the finalizer of a context handle. */
  function DeleteCtx(w: World, p: Ref): World
    requires OwnedCtx(w, p)
  {
    FreeCtx(w.(pctxs := w.pctxs[p := w.pctxs[p].(done := true)], ctxHandles := w.ctxHandles - {p}), p)
  }

  /** What the VM and the allocators answer while a plugin is loaded. `hasStart`: the module exports
      _start or _initialize, which then comes back with startRc. */
  datatype LoadAnswers = LoadAnswers(vmOk: bool, hasStart: bool, startRc: int, recordOk: bool)

  /** The VM has started, and there is memory for the record. */
  predicate Starts(o: LoadAnswers) {
    o.vmOk && (!o.hasStart || o.startRc == NGX_OK) && o.recordOk
  }

  /** ngx_http_wasm_load_plugin. */
  function Load(w: World, o: LoadAnswers): World {
    if !o.vmOk then w
    else if Starts(o) then AddPlugin(w, o.hasStart)
    else AbortLoad(w, o.hasStart)
  }

  /** What the guest and the allocators answer while a plugin context is configured.
      `garbage` is what the body of the freshly allocated state happens to hold. */
  datatype ConfigureAnswers = ConfigureAnswers(recordOk: bool, createRc: int, poolOk: bool, stateOk: bool,
                                               garbage: Option<Bytes>, configureRc: int)

  /** The call of proxy_on_configure, with the state of the context current while it runs. */
  function Configuring(w: World, p: Ref, garbage: Option<Bytes>): World
    requires OwnedCtx(w, p)
  {
    var pl := w.pctxs[p].plugin;
    ClearState(Emit(w.(pctxs := w.pctxs[p := w.pctxs[p].(body := garbage)], curState := Some(OfCtx(pl, p))),
                    pl, OnConfigure(w.pctxs[p].id)))
  }

  /** The part of ngx_http_wasm_on_configure that follows a successful proxy_on_context_create. */
  function Configured(w: World, p: Ref, o: ConfigureAnswers): World
    requires OwnedCtx(w, p)
  {
    if !o.poolOk || !o.stateOk then DeleteCtx(w, p)
    else
      var w' := Configuring(w, p, o.garbage);
      if o.configureRc <= 0 then DeleteCtx(w', p) else w'
  }

  /** The free queue of a plugin has a record at its end. */
  predicate Spare(w: World, pl: Ref) {
    && pl in w.plugins && w.plugins[pl].free != []
    && Last(w.plugins[pl].free) in w.pctxs && w.pctxs[Last(w.plugins[pl].free)].plugin == pl
  }

  /** The call of proxy_on_context_create for the record taken. */
  function AnnounceCtx(w: World, pl: Ref, ok: bool): World
    requires Spare(w, pl)
  {
    Emit(SetState(w, OfPlugin(pl)), pl, ContextCreate(w.pctxs[Last(w.plugins[pl].free)].id, 0, ok))
  }

  /** The part of ngx_http_wasm_on_configure that follows the choice of the record. */
  function Created(w: World, pl: Ref, o: ConfigureAnswers): World
    requires Spare(w, pl)
  {
    if o.createRc != NGX_OK then RotateCtx(AnnounceCtx(w, pl, false), pl)
    else Configured(ActivateCtx(AnnounceCtx(w, pl, true), pl, o.poolOk), Last(w.plugins[pl].free), o)
  }

  /** ngx_http_wasm_on_configure. */
  function Configure(w: World, pl: Ref, o: ConfigureAnswers): World
    requires pl in w.plugins
    requires forall p :: p in w.plugins[pl].free ==> p in w.pctxs && w.pctxs[p].plugin == pl
  {
    if w.plugins[pl].free == [] && !o.recordOk then w else Created(TakeCtx(w, pl), pl, o)
  }

  /** What the guest and the allocators answer while an HTTP context is looked up. */
  datatype FetchAnswers = FetchAnswers(moduleCtxOk: bool, arrayOk: bool, recordOk: bool, createRc: int)

  /** The HTTP contexts of an array belong to pairwise different plugin contexts. */
  predicate OnePerCtx(hctxs: map<Ref, HttpCtx>, a: seq<Ref>) {
    forall i, j | 0 <= i < j < |a| && a[i] in hctxs && a[j] in hctxs :: hctxs[a[i]].parent != hctxs[a[j]].parent
  }

  /** The first entry of an array that belongs to a plugin context. */
  function FindEntry(hctxs: map<Ref, HttpCtx>, a: seq<Ref>, p: Ref): (r: Option<Ref>)
    ensures r.Some? ==> r.value in a && r.value in hctxs && hctxs[r.value].parent == p
    ensures r.None? ==> forall h :: h in a && h in hctxs ==> hctxs[h].parent != p
  {
    if a == [] then None
    else if a[0] in hctxs && hctxs[a[0]].parent == p then Some(a[0])
    else FindEntry(hctxs, a[1..], p)
  }

  /** The HTTP context a request has under a plugin context, if any. */
  function Entry(w: World, r: ReqId, p: Ref): Option<Ref> {
    if r in w.requests then FindEntry(w.hctxs, w.requests[r], p) else None
  }

  /** A plugin context that on_http may be called with. */
  predicate CanServe(w: World, p: Ref) {
    OwnedCtx(w, p) && w.pctxs[p].pool.Some? && forall h :: h in w.pctxs[p].free ==> h in w.hctxs
  }

  /** The same plugin context, under the same name, before and after. */
  predicate SameCtx(w: World, w': World, p: Ref)
    requires p in w.pctxs
  {
    p in w'.pctxs && w'.pctxs[p].plugin == w.pctxs[p].plugin && w'.pctxs[p].id == w.pctxs[p].id
  }

  /** The call of proxy_on_context_create for the HTTP context taken. */
  function AnnounceHttp(w: World, p: Ref, ok: bool): World
    requires p in w.pctxs && w.pctxs[p].free != [] && Last(w.pctxs[p].free) in w.hctxs
  {
    Emit(w, w.pctxs[p].plugin, ContextCreate(w.hctxs[Last(w.pctxs[p].free)].id, w.pctxs[p].id, ok))
  }

  /** ngx_http_wasm_create_http_ctx, with the array push that follows it on success. */
  function CreateHttp(w: World, p: Ref, r: ReqId, o: FetchAnswers): (w': World)
    requires CanServe(w, p) && r in w.requests
    ensures SameCtx(w, w', p) && w'.curState == w.curState
  {
    if w.pctxs[p].free == [] && !o.recordOk then w
    else
      var w1 := TakeHttp(w, p);
      if o.createRc != NGX_OK then RotateHttp(AnnounceHttp(w1, p, false), p)
      else ActivateHttp(AnnounceHttp(w1, p, true), p, r)
  }

  /** ngx_array_create for a request's http_ctxs, unless it has one. */
  function AddArray(w: World, r: ReqId): World {
    if r in w.requests then w else w.(requests := w.requests[r := []])
  }

  /** ngx_http_wasm_fetch_http_ctx. */
  function Fetch(w: World, p: Ref, r: ReqId, o: FetchAnswers): (w': World)
    requires CanServe(w, p)
    ensures SameCtx(w, w', p) && w'.curState == w.curState
  {
    if r !in w.touched && !o.moduleCtxOk then w
    else
      // ngx_http_wasm_get_module_ctx: the first use of a request registers its cleanup handler
      var w1 := w.(touched := w.touched + {r});
      if r !in w.requests && !o.arrayOk then w1
      else if Entry(w1, r, p).Some? then w1
      else CreateHttp(AddArray(w1, r), p, r, o)
  }

  /** The state of the plugin context becomes current; a body, if there is one, is shown in it. */
  function Arrive(w: World, p: Ref, body: Option<Bytes>): (w': World)
    requires CanServe(w, p)
    ensures CanServe(w', p) && SameCtx(w, w', p)
  {
    var w' := if body.Some? then w.(pctxs := w.pctxs[p := w.pctxs[p].(body := body)]) else w;
    SetState(w', OfCtx(w.pctxs[p].plugin, p))
  }

  /** ngx_http_wasm_on_http, with the body chunk it is given. The result is whether the
      callback of the guest was run. */
  function OnHttp(w: World, p: Ref, r: ReqId, body: Option<Bytes>, o: FetchAnswers): (World, bool)
    requires CanServe(w, p)
  {
    var w1 := Fetch(Arrive(w, p, body), p, r, o);
    match Entry(w1, r, p)
    case None => (ClearState(w1), false)
    case Some(h) => (ClearState(Emit(w1, w.pctxs[p].plugin, OnStream(w1.hctxs[h].id, body))), true)
  }

  /** ngx_http_wasm_on_http_call_resp. */
  function OnHttpCallResp(w: World, p: Ref, r: ReqId, o: FetchAnswers): (World, bool)
    requires CanServe(w, p)
  {
    var w1 := Fetch(Arrive(w, p, None), p, r, o);
    match Entry(w1, r, p)
    case None => (ClearState(w1), false)
    case Some(_) => (ClearState(Emit(w1, w.pctxs[p].plugin, OnHttpCallResponse(w.pctxs[p].id))), true)
  }

  /** One turn of the loop of ngx_http_wasm_cleanup. */
  function CleanupOne(w: World, r: ReqId): World
    requires HasFirst(w, r)
  {
    var p := w.hctxs[w.requests[r][0]].parent;
    var w' := RetireHttp(w, r);
    if w.pctxs[p].done then FreeCtx(w', p) else w'
  }

  /** The end of ngx_http_wasm_cleanup: the pool of the request is gone. */
  function ForgetRequest(w: World, r: ReqId): World {
    w.(touched := w.touched - {r}, requests := w.requests - {r})
  }
}
