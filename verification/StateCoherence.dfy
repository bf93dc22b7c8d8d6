/**
 cur_state against the guest calls that see it: which record it names and which body it shows,
 for every call of every step.
 */
module StateCoherence {
  import opened Common
  import opened Queues
  import opened Abi
  import opened Lifecycle
  import opened Invariant
  import opened Preservation
  import opened PreservationHttp
  import opened Obedience
  import opened Entries
  import opened EntriesHttp
  import opened Runs

  // ------------------------------------------------------------------------------------
  // What a call should find

  /** A call for a context that is let go, or for a plugin that is: the state is what it was
      before, and no body is visible. */
  predicate Told(owner: Option<StateOwner>, c: Call) {
    && c.state == owner && c.body.None?
    && (c.what.Loaded? || c.what.Unloaded? || c.what.OnDone? || c.what.OnDelete?)
  }

  /** A call in a phase that p serves: the state of p is current and alive, and shows the chunk the
      phase was entered with, no other. */
  predicate InPhase(plugin: Ref, p: Ref, body: Option<Bytes>, c: Call) {
    && c.plugin == plugin && c.state == Some(OfCtx(plugin, p)) && c.stateLive && c.body == body
  }

  /** A call while a context of pl is configured. The state of the context is fresh from the
      allocator, so proxy_on_configure sees whatever its body happens to hold. A context that is
      given up is let go under the state of the plugin, or under none once proxy_on_configure ran. */
  predicate WhileConfiguring(pl: Ref, o: ConfigureAnswers, c: Call) {
    && c.plugin == pl && c.stateLive
    && match c.what
       case ContextCreate(_, _, _) => c.state == Some(OfPlugin(pl)) && c.body.None?
       case OnConfigure(_) => c.state.Some? && c.state.value.OfCtx? && c.state.value.plugin == pl && c.body == o.garbage
       case OnDone(_) => Told(if o.poolOk && o.stateOk then None else Some(OfPlugin(pl)), c)
       case OnDelete(_) => Told(if o.poolOk && o.stateOk then None else Some(OfPlugin(pl)), c)
       case _ => false
  }

  /** What a call that the step makes finds. */
  ghost predicate Sees(w: World, s: Step, c: Call) {
    match s
    case Serve(p, _, body, _) =>
      p in w.pctxs && InPhase(w.pctxs[p].plugin, p, body, c)
      && (c.what.ContextCreate? || (c.what.OnStream? && c.what.sent == body))
    case ServeCallResponse(p, _, _) =>
      p in w.pctxs && InPhase(w.pctxs[p].plugin, p, None, c) && (c.what.ContextCreate? || c.what.OnHttpCallResponse?)
    case ConfigurePlugin(pl, o) => WhileConfiguring(pl, o, c)
    case LoadPlugin(o) =>
      Told(w.curState, c) && c.stateLive == StateLive(w) && c.plugin == w.next
      && (c.what == Loaded(o.hasStart) || c.what.Unloaded?)
    case EndRequest(_) => Told(w.curState, c)
    case _ => Told(w.curState, c) && c.stateLive == StateLive(w)
  }

  /** The calls of w' are those of w and some more, which are all good. */
  ghost predicate Adds(w: World, w': World, good: Call -> bool) {
    w.calls <= w'.calls && forall i :: |w.calls| <= i < |w'.calls| ==> good(w'.calls[i])
  }

  lemma AddsTrans(w1: World, w2: World, w3: World, good: Call -> bool)
    requires Adds(w1, w2, good) && Adds(w2, w3, good)
    ensures Adds(w1, w3, good)
  {
  }

  lemma AddsNothing(w: World, w': World, good: Call -> bool)
    requires w'.calls == w.calls
    ensures Adds(w, w', good)
  {
  }

  lemma AddsMore(w: World, w': World, good: Call -> bool, better: Call -> bool)
    requires Adds(w, w', good) && forall c :: good(c) ==> better(c)
    ensures Adds(w, w', better)
  {
  }

  // ------------------------------------------------------------------------------------
  // Letting contexts and plugins go

  ghost predicate NoCtxState(w: World) {
    w.curState.Some? ==> w.curState.value.OfPlugin?
  }

  /** Calls for contexts of pl, and for pl itself if it may go, under a given state. */
  ghost function Dismissals(pl: Ref, done: bool, owner: Option<StateOwner>, live: bool): Call -> bool {
    c => Told(owner, c) && c.stateLive == live && c.plugin == pl && !c.what.Loaded? && (c.what.Unloaded? ==> done)
  }

  /** The n-th call tells a guest that a context is done, and the next one deletes it. */
  ghost predicate Farewell(calls: seq<Call>, n: nat, pl: Ref) {
    && n + 1 < |calls| && calls[n].plugin == pl && calls[n].what.OnDone?
    && calls[n + 1].plugin == pl && calls[n + 1].what == OnDelete(calls[n].what.id)
  }

  lemma ReleaseSees(w: World, w': World, pl: Ref, id: nat, done: bool)
    requires NoCtxState(w) && w'.calls == Emit(Emit(w, pl, OnDone(id)), pl, OnDelete(id)).calls
    ensures Adds(w, w', Dismissals(pl, done, w.curState, StateLive(w))) && Farewell(w'.calls, |w.calls|, pl)
  {
    var w1 := Emit(w, pl, OnDone(id));
    var w2 := Emit(w1, pl, OnDelete(id));
    assert w2.calls[|w.calls|] == w1.calls[|w.calls|];
    assert w2.calls == w1.calls + [w2.calls[|w1.calls|]];
  }

  lemma FarewellStays(w: World, w': World, good: Call -> bool, n: nat, pl: Ref)
    requires Adds(w, w', good) && Farewell(w.calls, n, pl)
    ensures Farewell(w'.calls, n, pl)
  {
    assert w'.calls[n] == w.calls[n] && w'.calls[n + 1] == w.calls[n + 1];
  }

  ghost function Unloadings(pl: Ref, owner: Option<StateOwner>, live: bool): Call -> bool {
    c => Told(owner, c) && c.stateLive == live && c.plugin == pl && c.what.Unloaded?
  }

  lemma FreePluginSees(w: World, pl: Ref)
    requires NoCtxState(w) && pl in w.plugins
    ensures var w' := FreePlugin(w, pl);
      Adds(w, w', Unloadings(pl, w.curState, StateLive(w))) && w'.curState == w.curState
  {
  }

  lemma RetireCtxSees(w: World, p: Ref, done: bool)
    requires NoCtxState(w) && OwnedCtx(w, p)
    ensures var w' := RetireCtx(w, p);
      && Adds(w, w', Dismissals(w.pctxs[p].plugin, done, w.curState, StateLive(w)))
      && Farewell(w'.calls, |w.calls|, w.pctxs[p].plugin)
      && w'.curState == w.curState && w'.plugins.Keys == w.plugins.Keys
  {
    ReleaseSees(w, RetireCtx(w, p), w.pctxs[p].plugin, w.pctxs[p].id, done);
  }

  lemma FreeCtxSees(w: World, p: Ref)
    requires NoCtxState(w) && OwnedCtx(w, p)
    ensures var w' := FreeCtx(w, p); var pl := w.pctxs[p].plugin;
      && Adds(w, w', Dismissals(pl, w.plugins[pl].done, w.curState, StateLive(w))) && w'.curState == w.curState
      && (if w.pctxs[p].occupied == [] then Farewell(w'.calls, |w.calls|, pl) else w'.calls == w.calls)
  {
    hide RetireCtx, FreePlugin, Adds, Farewell;
    var pl := w.pctxs[p].plugin;
    var good := Dismissals(pl, w.plugins[pl].done, w.curState, StateLive(w));
    AddsNothing(w, w, good);
    if w.pctxs[p].occupied == [] {
      RetireCtxSees(w, p, w.plugins[pl].done);
      var w1 := RetireCtx(w, p);
      assert pl in w1.plugins.Keys;
      if w.plugins[pl].done {
        FreePluginSees(w1, pl);
        AddsMore(w1, FreePlugin(w1, pl), Unloadings(pl, w1.curState, StateLive(w1)), good);
        AddsTrans(w, w1, FreePlugin(w1, pl), good);
        FarewellStays(w1, FreePlugin(w1, pl), good, |w.calls|, pl);
      }
    }
  }

  lemma DeleteCtxSees(w: World, p: Ref)
    requires NoCtxState(w) && OwnedCtx(w, p)
    ensures var w' := DeleteCtx(w, p); var pl := w.pctxs[p].plugin;
      && Adds(w, w', Dismissals(pl, w.plugins[pl].done, w.curState, StateLive(w))) && w'.curState == w.curState
      && (if w.pctxs[p].occupied == [] then Farewell(w'.calls, |w.calls|, pl) else w'.calls == w.calls)
  {
    hide FreeCtx, Farewell;
    FreeCtxSees(MarkCtx(w, p), p);
  }

  lemma UnloadSees(w: World, pl: Ref)
    requires NoCtxState(w) && pl in w.plugins
    ensures var w' := Unload(w, pl);
      Adds(w, w', Unloadings(pl, w.curState, StateLive(w))) && w'.curState == w.curState
  {
    hide FreePlugin;
    FreePluginSees(MarkPlugin(w, pl), pl);
  }

  /** One turn of the cleanup of a request: all its calls are made while the state is what it was
      before the turn. */
  lemma CleanupOneSees(w: World, r: ReqId)
    requires NoCtxState(w) && HasFirst(w, r)
    ensures var w' := CleanupOne(w, r); var pl := w.pctxs[w.hctxs[w.requests[r][0]].parent].plugin;
      && Adds(w, w', Dismissals(pl, w.plugins[pl].done, w.curState, StateLive(w))) && w'.curState == w.curState
      && Farewell(w'.calls, |w.calls|, pl)
  {
    hide FreeCtx, Adds, Farewell;
    var h := w.requests[r][0];
    var p := w.hctxs[h].parent;
    var w1 := RetireHttp(w, r);
    var good := Dismissals(w.pctxs[p].plugin, w.plugins[w.pctxs[p].plugin].done, w.curState, StateLive(w));
    ReleaseSees(w, w1, w.pctxs[p].plugin, w.hctxs[h].id, w.plugins[w.pctxs[p].plugin].done);
    if w.pctxs[p].done {
      FreeCtxSees(w1, p);
      AddsTrans(w, w1, FreeCtx(w1, p), good);
      FarewellStays(w1, FreeCtx(w1, p), good, |w.calls|, w.pctxs[p].plugin);
    }
  }

  ghost function Tellings(owner: Option<StateOwner>): Call -> bool {
    c => Told(owner, c)
  }

  lemma {:induction false} CleanupSees(w: World, r: ReqId)
    requires Inv(w) && r in w.touched
    ensures Adds(w, Cleanup(w, r), Tellings(w.curState)) && Cleanup(w, r).curState == w.curState
    decreases if r in w.requests then |w.requests[r]| else 0
  {
    hide Structure, Obeyed, Needed, CleanupOne, Adds;
    if r in w.requests && w.requests[r] != [] {
      CleanupOneKeeps(w, r);
      CleanupOneFrame(w, r);
      CleanupOneSees(w, r);
      var w1 := CleanupOne(w, r);
      var pl := w.pctxs[w.hctxs[w.requests[r][0]].parent].plugin;
      AddsMore(w, w1, Dismissals(pl, w.plugins[pl].done, w.curState, StateLive(w)), Tellings(w.curState));
      CleanupSees(w1, r);
      AddsTrans(w, w1, Cleanup(w1, r), Tellings(w.curState));
    } else {
      AddsNothing(w, Cleanup(w, r), Tellings(w.curState));
    }
  }

  // ------------------------------------------------------------------------------------
  // Configuring

  ghost function Configurings(pl: Ref, o: ConfigureAnswers): Call -> bool {
    c => WhileConfiguring(pl, o, c)
  }

  lemma ConfiguringSees(w: World, p: Ref, o: ConfigureAnswers)
    requires OwnedCtx(w, p) && w.pctxs[p].pool.Some?
    ensures var w' := Configuring(w, p, o.garbage);
      && Adds(w, w', Configurings(w.pctxs[p].plugin, o)) && w'.curState.None? && OwnedCtx(w', p)
      && w'.pctxs[p].plugin == w.pctxs[p].plugin && w'.plugins == w.plugins
  {
    var w' := Configuring(w, p, o.garbage);
    assert w'.calls == w.calls + [w'.calls[|w.calls|]];
  }

  /** Giving a context up while its plugin stays. */
  lemma GiveUpSees(w: World, p: Ref, o: ConfigureAnswers)
    requires OwnedCtx(w, p) && !w.plugins[w.pctxs[p].plugin].done
    requires w.curState == if o.poolOk && o.stateOk then None else Some(OfPlugin(w.pctxs[p].plugin))
    ensures Adds(w, DeleteCtx(w, p), Configurings(w.pctxs[p].plugin, o)) && DeleteCtx(w, p).curState == w.curState
  {
    hide DeleteCtx, Adds;
    var pl := w.pctxs[p].plugin;
    DeleteCtxSees(w, p);
    AddsMore(w, DeleteCtx(w, p), Dismissals(pl, false, w.curState, true), Configurings(pl, o));
  }

  lemma ConfiguredSees(w: World, p: Ref, o: ConfigureAnswers)
    requires OwnedCtx(w, p) && (o.poolOk ==> w.pctxs[p].pool.Some?) && !w.plugins[w.pctxs[p].plugin].done
    requires w.curState == Some(OfPlugin(w.pctxs[p].plugin))
    ensures var w' := Configured(w, p, o); var pl := w.pctxs[p].plugin;
      && Adds(w, w', Configurings(pl, o))
      && w'.curState == if o.poolOk && o.stateOk then None else Some(OfPlugin(pl))
  {
    hide Adds, DeleteCtx, Configuring;
    var pl := w.pctxs[p].plugin;
    if !o.poolOk || !o.stateOk {
      GiveUpSees(w, p, o);
    } else {
      ConfiguringSees(w, p, o);
      var w1 := Configuring(w, p, o.garbage);
      if o.configureRc <= 0 {
        GiveUpSees(w1, p, o);
        AddsTrans(w, w1, DeleteCtx(w1, p), Configurings(pl, o));
      }
    }
  }

  lemma AnnounceCtxSees(w: World, pl: Ref, ok: bool, o: ConfigureAnswers)
    requires Spare(w, pl)
    ensures var w' := AnnounceCtx(w, pl, ok); Adds(w, w', Configurings(pl, o)) && w'.curState == Some(OfPlugin(pl))
  {
    var w' := AnnounceCtx(w, pl, ok);
    assert w'.calls == w.calls + [w'.calls[|w.calls|]];
  }

  lemma ActivateCtxScope(w: World, pl: Ref, poolOk: bool)
    requires Spare(w, pl) && w.curState == Some(OfPlugin(pl))
    ensures var w' := ActivateCtx(w, pl, poolOk); var p := Last(w.plugins[pl].free);
      && w'.calls == w.calls && w'.curState == w.curState && OwnedCtx(w', p) && w'.pctxs[p].plugin == pl
      && w'.plugins[pl].done == w.plugins[pl].done && (poolOk ==> w'.pctxs[p].pool.Some?)
  {
  }

  lemma CreatedSees(w: World, pl: Ref, o: ConfigureAnswers)
    requires Spare(w, pl) && !w.plugins[pl].done
    ensures var w' := Created(w, pl, o);
      && Adds(w, w', Configurings(pl, o))
      && w'.curState == if o.createRc == NGX_OK && o.poolOk && o.stateOk then None else Some(OfPlugin(pl))
  {
    hide Adds, Configured, ActivateCtx, AnnounceCtx;
    var good := Configurings(pl, o);
    AnnounceCtxSees(w, pl, o.createRc == NGX_OK, o);
    var w1 := AnnounceCtx(w, pl, o.createRc == NGX_OK);
    AnnounceSpare(w, pl, o.createRc == NGX_OK);
    if o.createRc == NGX_OK {
      var w2 := ActivateCtx(w1, pl, o.poolOk);
      ActivateCtxScope(w1, pl, o.poolOk);
      AddsNothing(w1, w2, good);
      AddsTrans(w, w1, w2, good);
      ConfiguredSees(w2, Last(w.plugins[pl].free), o);
      AddsTrans(w, w2, Configured(w2, Last(w.plugins[pl].free), o), good);
    } else {
      AddsNothing(w1, RotateCtx(w1, pl), good);
      AddsTrans(w, w1, RotateCtx(w1, pl), good);
    }
  }

  lemma AnnounceSpare(w: World, pl: Ref, ok: bool)
    requires Spare(w, pl)
    ensures var w' := AnnounceCtx(w, pl, ok); Spare(w', pl) && w'.plugins == w.plugins
  {
  }

  lemma HandleIsNotDone(w: World, pl: Ref)
    requires Inv(w) && pl in w.pluginHandles
    ensures pl in w.plugins && !w.plugins[pl].done
  {
    hide Obeyed, Needed, Quiet;
  }

  lemma TakeCtxSees(w: World, pl: Ref)
    requires pl in w.plugins && forall p :: p in w.plugins[pl].free ==> p in w.pctxs && w.pctxs[p].plugin == pl
    ensures var w' := TakeCtx(w, pl);
      w'.calls == w.calls && Spare(w', pl) && w'.plugins[pl].done == w.plugins[pl].done && w'.curState == w.curState
  {
  }

  lemma ConfigureSees(w: World, pl: Ref, o: ConfigureAnswers)
    requires Inv(w) && pl in w.pluginHandles
    ensures pl in w.plugins && Adds(w, Configuration(w, pl, o), Configurings(pl, o))
    ensures Configuration(w, pl, o).curState
         == if w.plugins[pl].free == [] && !o.recordOk then w.curState
            else if o.createRc == NGX_OK && o.poolOk && o.stateOk then None
            else Some(OfPlugin(pl))
  {
    hide Adds, Created, TakeCtx, Inv;
    HandleConfigures(w, pl);
    HandleIsNotDone(w, pl);
    AddsNothing(w, w, Configurings(pl, o));
    if w.plugins[pl].free != [] || o.recordOk {
      var w1 := TakeCtx(w, pl);
      TakeCtxSees(w, pl);
      CreatedSees(w1, pl, o);
      AddsNothing(w, w1, Configurings(pl, o));
      AddsTrans(w, w1, Created(w1, pl, o), Configurings(pl, o));
    }
  }

  // ------------------------------------------------------------------------------------
  // Serving

  /** The state of p is current and shows the given body. */
  ghost predicate Shows(w: World, p: Ref, body: Option<Bytes>) {
    && OwnedCtx(w, p) && w.pctxs[p].pool.Some?
    && w.curState == Some(OfCtx(w.pctxs[p].plugin, p)) && w.pctxs[p].body == body
  }

  ghost function Phases(pl: Ref, p: Ref, body: Option<Bytes>, response: bool): Call -> bool {
    c => InPhase(pl, p, body, c)
         && (c.what.ContextCreate?
             || if response then c.what.OnHttpCallResponse? else c.what.OnStream? && c.what.sent == body)
  }

  lemma TakeHttpShows(w: World, p: Ref, body: Option<Bytes>)
    requires Shows(w, p, body)
    ensures var w' := TakeHttp(w, p);
      Shows(w', p, body) && w'.calls == w.calls && SpareHttp(w', p) && w'.pctxs[p].plugin == w.pctxs[p].plugin
  {
  }

  lemma AnnounceHttpShows(w: World, p: Ref, body: Option<Bytes>, ok: bool, response: bool)
    requires Shows(w, p, body) && SpareHttp(w, p) && Last(w.pctxs[p].free) in w.hctxs
    ensures var w' := AnnounceHttp(w, p, ok);
      Shows(w', p, body) && Adds(w, w', Phases(w.pctxs[p].plugin, p, body, response)) && w'.pctxs == w.pctxs
  {
    var w' := AnnounceHttp(w, p, ok);
    assert w'.calls == w.calls + [w'.calls[|w.calls|]];
  }

  lemma CreateHttpShows(w: World, p: Ref, r: ReqId, body: Option<Bytes>, o: FetchAnswers, response: bool)
    requires CanServe(w, p) && Shows(w, p, body) && r in w.requests
    ensures var w' := CreateHttp(w, p, r, o);
      Shows(w', p, body) && Adds(w, w', Phases(w.pctxs[p].plugin, p, body, response))
  {
    hide Adds, TakeHttp;
    var good := Phases(w.pctxs[p].plugin, p, body, response);
    AddsNothing(w, w, good);
    if w.pctxs[p].free != [] || o.recordOk {
      var w1 := TakeHttp(w, p);
      TakeHttpShows(w, p, body);
      TakenIsThere(w, p);
      AnnounceHttpShows(w1, p, body, o.createRc == NGX_OK, response);
      AddsNothing(w, w1, good);
      AddsTrans(w, w1, AnnounceHttp(w1, p, o.createRc == NGX_OK), good);
      AddsNothing(AnnounceHttp(w1, p, o.createRc == NGX_OK), CreateHttp(w, p, r, o), good);
      AddsTrans(w, AnnounceHttp(w1, p, o.createRc == NGX_OK), CreateHttp(w, p, r, o), good);
    }
  }

  lemma TakenIsThere(w: World, p: Ref)
    requires CanServe(w, p)
    ensures var w' := TakeHttp(w, p);
            w'.pctxs[p].free != [] && Last(w'.pctxs[p].free) in w'.hctxs && w'.requests == w.requests
  {
    assert w.pctxs[p].free != [] ==> Last(w.pctxs[p].free) in w.pctxs[p].free;
  }

  lemma FetchShows(w: World, p: Ref, r: ReqId, body: Option<Bytes>, o: FetchAnswers, response: bool)
    requires CanServe(w, p) && Shows(w, p, body)
    ensures var w' := Fetch(w, p, r, o);
      Shows(w', p, body) && Adds(w, w', Phases(w.pctxs[p].plugin, p, body, response))
  {
    hide Adds, CreateHttp;
    var good := Phases(w.pctxs[p].plugin, p, body, response);
    var w1 := w.(touched := w.touched + {r});
    AddsNothing(w, w, good);
    AddsNothing(w, w1, good);
    if (r in w.touched || o.moduleCtxOk) && (r in w.requests || o.arrayOk) && Entry(w1, r, p).None? {
      var w2 := AddArray(w1, r);
      CreateHttpShows(w2, p, r, body, o, response);
      AddsNothing(w, w2, good);
      AddsTrans(w, w2, CreateHttp(w2, p, r, o), good);
    }
  }

  lemma ArriveShows(w: World, p: Ref, body: Option<Bytes>)
    requires CanServe(w, p) && w.pctxs[p].body.None?
    ensures var w' := Arrive(w, p, body);
      Shows(w', p, body) && w'.calls == w.calls && w'.pctxs[p].plugin == w.pctxs[p].plugin
  {
  }

  lemma CallbackSees(w: World, p: Ref, body: Option<Bytes>, what: What)
    requires Shows(w, p, body)
    requires (what.OnStream? && what.sent == body) || (what.OnHttpCallResponse? && body == None)
    ensures Adds(w, ClearState(Emit(w, w.pctxs[p].plugin, what)),
                 Phases(w.pctxs[p].plugin, p, body, what.OnHttpCallResponse?))
  {
    hide ClearState;
    var w1 := Emit(w, w.pctxs[p].plugin, what);
    ClearCalls(w1);
    assert w1.calls == w.calls + [w1.calls[|w.calls|]];
  }

  lemma ClearCalls(w: World)
    ensures ClearState(w).calls == w.calls
  {
  }

  lemma ServiceSees(w: World, p: Ref, r: ReqId, body: Option<Bytes>, o: FetchAnswers)
    requires Inv(w) && p in w.ctxHandles
    ensures p in w.pctxs && Adds(w, Service(w, p, r, body, o), Phases(w.pctxs[p].plugin, p, body, false))
  {
    hide Adds, Fetch, Arrive, ClearState, Structure, Obeyed, Needed;
    HandleServes(w, p);
    ArriveShows(w, p, body);
    var good := Phases(w.pctxs[p].plugin, p, body, false);
    var w0 := Arrive(w, p, body);
    var w1 := Fetch(w0, p, r, o);
    FetchShows(w0, p, r, body, o, false);
    AddsNothing(w, w0, good);
    AddsTrans(w, w0, w1, good);
    var e := Entry(w1, r, p);
    if e.Some? {
      CallbackSees(w1, p, body, OnStream(w1.hctxs[e.value].id, body));
    } else {
      ClearCalls(w1);
      AddsNothing(w1, ClearState(w1), good);
    }
    AddsTrans(w, w1, Service(w, p, r, body, o), good);
  }

  lemma CallResponseSees(w: World, p: Ref, r: ReqId, o: FetchAnswers)
    requires Inv(w) && p in w.ctxHandles
    ensures p in w.pctxs && Adds(w, CallResponse(w, p, r, o), Phases(w.pctxs[p].plugin, p, None, true))
  {
    hide Adds, Fetch, Arrive, ClearState, Structure, Obeyed, Needed;
    HandleServes(w, p);
    ArriveShows(w, p, None);
    var good := Phases(w.pctxs[p].plugin, p, None, true);
    var w0 := Arrive(w, p, None);
    var w1 := Fetch(w0, p, r, o);
    FetchShows(w0, p, r, None, o, true);
    AddsNothing(w, w0, good);
    AddsTrans(w, w0, w1, good);
    if Entry(w1, r, p).Some? {
      CallbackSees(w1, p, None, OnHttpCallResponse(w.pctxs[p].id));
    } else {
      ClearCalls(w1);
      AddsNothing(w1, ClearState(w1), good);
    }
    AddsTrans(w, w1, CallResponse(w, p, r, o), good);
  }

  // ------------------------------------------------------------------------------------
  // Steps and runs

  ghost function Seeings(w: World, s: Step): Call -> bool {
    c => Sees(w, s, c)
  }

  lemma LoadSees(w: World, o: LoadAnswers)
    requires NoCtxState(w)
    ensures Adds(w, Load(w, o), Seeings(w, LoadPlugin(o))) && Load(w, o).curState == w.curState
    ensures if o.vmOk then |Load(w, o).calls| > |w.calls| && Load(w, o).calls[|w.calls|].what == Loaded(o.hasStart)
            else Load(w, o).calls == w.calls
  {
    hide AddPlugin, AbortLoad;
    AddPluginSees(w, o);
    AbortLoadSees(w, o);
  }

  lemma AddPluginSees(w: World, o: LoadAnswers)
    requires NoCtxState(w)
    ensures var w' := AddPlugin(w, o.hasStart);
      Adds(w, w', Seeings(w, LoadPlugin(o))) && w'.curState == w.curState
      && |w'.calls| > |w.calls| && w'.calls[|w.calls|].what == Loaded(o.hasStart)
  {
    var w1 := Emit(w, w.next, Loaded(o.hasStart));
    assert w1.calls == w.calls + [w1.calls[|w.calls|]];
  }

  lemma AbortLoadSees(w: World, o: LoadAnswers)
    requires NoCtxState(w)
    ensures var w' := AbortLoad(w, o.hasStart);
      Adds(w, w', Seeings(w, LoadPlugin(o))) && w'.curState == w.curState
      && |w'.calls| > |w.calls| && w'.calls[|w.calls|].what == Loaded(o.hasStart)
  {
    var w1 := Emit(w, w.next, Loaded(o.hasStart));
    assert w1.calls == w.calls + [w1.calls[|w.calls|]];
    assert AbortLoad(w, o.hasStart).calls[|w.calls|] == w1.calls[|w.calls|];
  }

  lemma QuietState(w: World)
    requires Inv(w)
    ensures NoCtxState(w)
  {
    hide Structure, Obeyed, Needed;
  }

  /** What every call that a step makes finds, the call being one of the step's own kinds. */
  lemma StepSees(w: World, s: Step)
    requires Inv(w) && Enabled(w, s)
    ensures Adds(w, Next(w, s), Seeings(w, s))
  {
    hide Adds, Inv, Configuration, Service, CallResponse, Cleanup, DeleteCtx, Unload, Load;
    QuietState(w);
    var w' := Next(w, s);
    match s
    case LoadPlugin(o) => LoadSees(w, o);
    case ConfigurePlugin(pl, o) =>
      ConfigureSees(w, pl, o);
      AddsMore(w, w', Configurings(pl, o), Seeings(w, s));
    case Serve(p, r, body, o) =>
      ServiceSees(w, p, r, body, o);
      AddsMore(w, w', Phases(w.pctxs[p].plugin, p, body, false), Seeings(w, s));
    case ServeCallResponse(p, r, o) =>
      CallResponseSees(w, p, r, o);
      AddsMore(w, w', Phases(w.pctxs[p].plugin, p, None, true), Seeings(w, s));
    case EndRequest(r) =>
      CleanupSees(w, r);
      AddsMore(w, w', Tellings(w.curState), Seeings(w, s));
    case FinalizeCtx(p) =>
      HandleServes(w, p);
      DeleteCtxSees(w, p);
      var pl := w.pctxs[p].plugin;
      AddsMore(w, w', Dismissals(pl, w.plugins[pl].done, w.curState, StateLive(w)), Seeings(w, s));
    case FinalizePlugin(pl) =>
      HandleConfigures(w, pl);
      UnloadSees(w, pl);
      AddsMore(w, w', Unloadings(pl, w.curState, StateLive(w)), Seeings(w, s));
  }

  lemma AddsPrefix(w: World, w': World, good: Call -> bool)
    requires Adds(w, w', good)
    ensures w.calls <= w'.calls
  {
  }

  lemma {:induction false} CallsGrow(ss: seq<Step>, n: nat)
    requires Legal(ss) && n <= |ss|
    ensures Legal(ss[..n]) && Run(ss[..n]).calls <= Run(ss).calls
    decreases |ss|
  {
    hide Inv, Adds, Next, Enabled;
    if n == |ss| {
      assert ss[..n] == ss;
    } else {
      var init := ss[..|ss| - 1];
      CallsGrow(init, n);
      assert init[..n] == ss[..n];
      StepSees(Run(init), ss[|ss| - 1]);
      AddsPrefix(Run(init), Run(ss), Seeings(Run(init), ss[|ss| - 1]));
    }
  }

  /** In every run, the calls that the k-th step has added to the history find what calls of that
      step should find. */
  lemma EveryCallSees(ss: seq<Step>, k: nat)
    requires Legal(ss) && k < |ss|
    ensures Legal(ss[..k]) && Legal(ss[..k + 1]) && Enabled(Run(ss[..k]), ss[k])
    ensures Run(ss[..k + 1]).calls <= Run(ss).calls
    ensures Adds(Run(ss[..k]), Run(ss[..k + 1]), Seeings(Run(ss[..k]), ss[k]))
  {
    hide Inv, Adds, Next, Enabled;
    CallsGrow(ss, k);
    CallsGrow(ss, k + 1);
    assert ss[..k + 1][..k] == ss[..k];
    StepSees(Run(ss[..k]), ss[k]);
  }

  /** While a guest is called for its configuration, a new context or a phase, cur_state is alive
      and belongs to its own plugin. */
  predicate OwnState(c: Call) {
    c.what.ContextCreate? || c.what.OnConfigure? || c.what.OnStream? || c.what.OnHttpCallResponse? ==>
      c.stateLive && c.state.Some? && c.state.value.plugin == c.plugin
  }

  lemma {:induction false} CallbacksFindTheirOwnState(ss: seq<Step>)
    requires Legal(ss)
    ensures forall c :: c in Run(ss).calls ==> OwnState(c)
    decreases |ss|
  {
    hide Inv, Next, Enabled;
    if ss != [] {
      var init, s := ss[..|ss| - 1], ss[|ss| - 1];
      CallbacksFindTheirOwnState(init);
      StepSees(Run(init), s);
      forall i | 0 <= i < |Run(ss).calls|
        ensures OwnState(Run(ss).calls[i])
      {
        if i < |Run(init).calls| {
          assert Run(ss).calls[i] == Run(init).calls[i];
        } else {
          assert Sees(Run(init), s, Run(ss).calls[i]);
        }
      }
    }
  }

  /** While such a call runs, cur_plugin, whose memory the host functions work on, is its own plugin,
      and so the plugin of cur_state. */
  lemma StateAndMemoryAgree(ss: seq<Step>, k: nat)
    requires Legal(ss) && k < |Run(ss).calls|
    ensures var c := Run(ss).calls[k];
      c.what.ContextCreate? || c.what.OnConfigure? || c.what.OnStream? || c.what.OnHttpCallResponse? ==>
        c.stateLive && c.state.Some? && CurPlugin(Run(ss).calls[..k + 1]) == Some(c.state.value.plugin)
  {
    hide Inv, Next, Enabled;
    CallbacksFindTheirOwnState(ss);
    assert Run(ss).calls[..k + 1][k] == Run(ss).calls[k];
    assert Run(ss).calls[k] in Run(ss).calls;
  }

  // ------------------------------------------------------------------------------------
  // When the state is left behind

  /** Steps that end with no current state: all of them, except a configuration that fails
      at proxy_on_context_create or at one of the two allocations that follow it. */
  ghost predicate LeavesStateClear(w: World, s: Step) {
    s.ConfigurePlugin? && s.pl in w.plugins ==>
      var o := s.configure;
      (w.plugins[s.pl].free == [] && !o.recordOk) || (o.createRc == NGX_OK && o.poolOk && o.stateOk)
  }

  /** What the current state is after a step: that of the plugin after a configuration that fails
      early, none after one that does not and after a phase, the same after anything else. */
  lemma StateAfter(w: World, s: Step)
    requires Inv(w) && Enabled(w, s)
    ensures Next(w, s).curState
         == match s
            case ConfigurePlugin(pl, o) =>
              if pl in w.plugins && w.plugins[pl].free == [] && !o.recordOk then w.curState
              else if o.createRc == NGX_OK && o.poolOk && o.stateOk then None
              else Some(OfPlugin(pl))
            case Serve(_, _, _, _) => None
            case ServeCallResponse(_, _, _) => None
            case _ => w.curState
  {
    hide Adds, Inv, Configuration, Service, CallResponse, Cleanup, DeleteCtx, Unload, Load;
    QuietState(w);
    match s
    case LoadPlugin(o) => LoadSees(w, o);
    case ConfigurePlugin(pl, o) => ConfigureSees(w, pl, o);
    case Serve(p, r, body, o) =>
    case ServeCallResponse(p, r, o) =>
    case EndRequest(r) => CleanupSees(w, r);
    case FinalizeCtx(p) =>
      HandleServes(w, p);
      DeleteCtxSees(w, p);
    case FinalizePlugin(pl) =>
      HandleConfigures(w, pl);
      UnloadSees(w, pl);
  }

  /** Exactly when a step that starts with no current state ends with none. */
  lemma StateIsLeftBehindExactlyWhen(w: World, s: Step)
    requires Inv(w) && Enabled(w, s) && w.curState.None?
    ensures Next(w, s).curState.None? <==> LeavesStateClear(w, s)
  {
    hide Inv, Next;
    StateAfter(w, s);
    if s.ConfigurePlugin? {
      HandleConfigures(w, s.pl);
    }
  }

  /** A run whose configurations all get past their allocations. */
  ghost predicate AllLeaveStateClear(ss: seq<Step>)
    requires Legal(ss)
  {
    ss == [] || (AllLeaveStateClear(ss[..|ss| - 1]) && LeavesStateClear(Run(ss[..|ss| - 1]), ss[|ss| - 1]))
  }

  lemma {:induction false} ClearRunsStayClear(ss: seq<Step>)
    requires Legal(ss) && AllLeaveStateClear(ss)
    ensures Run(ss).curState.None?
  {
    hide Inv, LeavesStateClear;
    if ss != [] {
      ClearRunsStayClear(ss[..|ss| - 1]);
      StateIsLeftBehindExactlyWhen(Run(ss[..|ss| - 1]), ss[|ss| - 1]);
    }
  }
}
