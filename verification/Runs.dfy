/**
 Runs of the whole module: any interleaving of entries from Lua and nginx, with any answers
 of the guests and of the allocators, and what holds at the end of every one of them.
 */
module Runs {
  import opened Common
  import opened Abi
  import opened Lifecycle
  import opened Invariant
  import opened Preservation
  import opened PreservationHttp
  import opened Obedience
  import opened Entries
  import opened EntriesHttp

  datatype Step =
    | LoadPlugin(load: LoadAnswers)
    | ConfigurePlugin(pl: Ref, configure: ConfigureAnswers)
    | Serve(p: Ref, r: ReqId, body: Option<Bytes>, fetch: FetchAnswers)
    | ServeCallResponse(p: Ref, r: ReqId, fetch: FetchAnswers)
    | EndRequest(r: ReqId)
    | FinalizeCtx(p: Ref)
    | FinalizePlugin(pl: Ref)

  /** Lua only passes handles it still holds, each finalizer runs once per handle, and the
      cleanup handler of a request once per registration. */
  predicate Enabled(w: World, s: Step) {
    match s
    case LoadPlugin(_) => true
    case ConfigurePlugin(pl, _) => pl in w.pluginHandles
    case Serve(p, _, _, _) => p in w.ctxHandles
    case ServeCallResponse(p, _, _) => p in w.ctxHandles
    case EndRequest(r) => r in w.touched
    case FinalizeCtx(p) => p in w.ctxHandles
    case FinalizePlugin(pl) => pl in w.pluginHandles
  }

  // ------------------------------------------------------------------------------------
  // The cleanup of a request

  lemma FreePluginFrame(w: World, pl: Ref)
    requires pl in w.plugins
    ensures FreePlugin(w, pl).requests == w.requests && FreePlugin(w, pl).touched == w.touched
  {
  }

  lemma RetireCtxFrame(w: World, p: Ref)
    requires OwnedCtx(w, p)
    ensures RetireCtx(w, p).requests == w.requests && RetireCtx(w, p).touched == w.touched
    ensures RetireCtx(w, p).plugins.Keys == w.plugins.Keys
  {
  }

  lemma FreeCtxFrame(w: World, p: Ref)
    requires OwnedCtx(w, p)
    ensures FreeCtx(w, p).requests == w.requests && FreeCtx(w, p).touched == w.touched
  {
    hide RetireCtx, FreePlugin;
    RetireCtxFrame(w, p);
    if w.pctxs[p].occupied == [] {
      assert w.pctxs[p].plugin in RetireCtx(w, p).plugins.Keys;
      FreePluginFrame(RetireCtx(w, p), w.pctxs[p].plugin);
    }
  }

  lemma CleanupOneFrame(w: World, r: ReqId)
    requires HasFirst(w, r)
    ensures CleanupOne(w, r).requests == w.requests[r := w.requests[r][1..]] && CleanupOne(w, r).touched == w.touched
  {
    hide FreeCtx;
    var w' := RetireHttp(w, r);
    var p := w.hctxs[w.requests[r][0]].parent;
    assert OwnedCtx(w', p);
    FreeCtxFrame(w', p);
  }

  lemma ForgetRequestRequests(w: World, r: ReqId)
    requires Requests(w.touched, w.requests, w.holder, w.hctxs, w.busyHttp)
    requires r in w.requests ==> w.requests[r] == []
    ensures Requests(w.touched - {r}, w.requests - {r}, w.holder, w.hctxs, w.busyHttp)
  {
  }

  lemma ForgetRequestStructure(w: World, r: ReqId)
    requires Structure(w) && (r in w.requests ==> w.requests[r] == [])
    ensures Structure(ForgetRequest(w, r))
  {
    ForgetRequestRequests(w, r);
  }

  lemma ForgetRequestKeeps(w: World, r: ReqId)
    requires Inv(w) && (r in w.requests ==> w.requests[r] == [])
    ensures Inv(ForgetRequest(w, r))
  {
    hide Structure;
    ForgetRequestStructure(w, r);
  }

  /** ngx_http_wasm_cleanup. */
  ghost function Cleanup(w: World, r: ReqId): (w': World)
    requires Inv(w) && r in w.touched
    ensures Inv(w')
    decreases if r in w.requests then |w.requests[r]| else 0
  {
    if r !in w.requests || w.requests[r] == [] then
      ForgetRequestKeeps(w, r);
      ForgetRequest(w, r)
    else
      CleanupOneKeeps(w, r);
      CleanupOneFrame(w, r);
      Cleanup(CleanupOne(w, r), r)
  }

  // ------------------------------------------------------------------------------------
  // Runs

  lemma HandleServes(w: World, p: Ref)
    requires Inv(w) && p in w.ctxHandles
    ensures p in w.busy && p in w.pctxs && CanServe(w, p)
  {
  }

  lemma HandleConfigures(w: World, pl: Ref)
    requires Inv(w) && pl in w.pluginHandles
    ensures pl in w.plugins && forall p :: p in w.plugins[pl].free ==> p in w.pctxs && w.pctxs[p].plugin == pl
  {
  }

  ghost function Configuration(w: World, pl: Ref, o: ConfigureAnswers): (w': World)
    requires Inv(w) && pl in w.pluginHandles
    ensures Inv(w')
  {
    HandleConfigures(w, pl);
    ConfigureKeeps(w, pl, o);
    Configure(w, pl, o)
  }

  ghost function Service(w: World, p: Ref, r: ReqId, body: Option<Bytes>, o: FetchAnswers): (w': World)
    requires Inv(w) && p in w.ctxHandles
    ensures Inv(w') && w'.curState.None?
  {
    HandleServes(w, p);
    OnHttpKeeps(w, p, r, body, o);
    OnHttp(w, p, r, body, o).0
  }

  ghost function CallResponse(w: World, p: Ref, r: ReqId, o: FetchAnswers): (w': World)
    requires Inv(w) && p in w.ctxHandles
    ensures Inv(w') && w'.curState.None?
  {
    HandleServes(w, p);
    OnHttpCallRespKeeps(w, p, r, o);
    OnHttpCallResp(w, p, r, o).0
  }

  /** Whether the callback of the guest is run. */
  ghost predicate RunsStream(w: World, p: Ref, r: ReqId, body: Option<Bytes>, o: FetchAnswers)
    requires Inv(w) && p in w.ctxHandles
  {
    HandleServes(w, p);
    OnHttp(w, p, r, body, o).1
  }

  ghost predicate RunsCallResponse(w: World, p: Ref, r: ReqId, o: FetchAnswers)
    requires Inv(w) && p in w.ctxHandles
  {
    HandleServes(w, p);
    OnHttpCallResp(w, p, r, o).1
  }

  ghost function CtxFinalizer(w: World, p: Ref): (w': World)
    requires Inv(w) && p in w.ctxHandles
    ensures Inv(w')
  {
    HandleServes(w, p);
    DeleteCtxKeeps(w, p);
    DeleteCtx(w, p)
  }

  ghost function PluginFinalizer(w: World, pl: Ref): (w': World)
    requires Inv(w) && pl in w.pluginHandles
    ensures Inv(w')
  {
    UnloadKeeps(w, pl);
    Unload(w, pl)
  }

  ghost function Next(w: World, s: Step): (w': World)
    requires Inv(w) && Enabled(w, s)
    ensures Inv(w')
  {
    hide Structure, Obeyed, Needed, Quiet;
    match s
    case LoadPlugin(o) => LoadKeeps(w, o); Load(w, o)
    case ConfigurePlugin(pl, o) => Configuration(w, pl, o)
    case Serve(p, r, body, o) => Service(w, p, r, body, o)
    case ServeCallResponse(p, r, o) => CallResponse(w, p, r, o)
    case EndRequest(r) => Cleanup(w, r)
    case FinalizeCtx(p) => CtxFinalizer(w, p)
    case FinalizePlugin(pl) => PluginFinalizer(w, pl)
  }

  lemma EmptyInv()
    ensures Inv(Empty)
  {
  }

  /** A run that Lua and nginx can make from the start of a worker. */
  ghost predicate Legal(ss: seq<Step>)
    decreases |ss|, 0
  {
    ss == [] || (Legal(ss[..|ss| - 1]) && Enabled(Run(ss[..|ss| - 1]), ss[|ss| - 1]))
  }

  /** The world after a run. Each pointer the module follows on the way is followed to a live
      record, and the invariant holds in the end. */
  ghost function Run(ss: seq<Step>): (w: World)
    requires Legal(ss)
    ensures Inv(w)
    decreases |ss|, 1
  {
    if ss == [] then EmptyInv(); Empty else Next(Run(ss[..|ss| - 1]), ss[|ss| - 1])
  }
}
