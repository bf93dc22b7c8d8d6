/**
 What the module does with the answer of proxy_on_done: nothing but log it. Every context that is
 told to be done is deleted by the very next call, so a guest that answers that it is not done yet
 is deleted all the same, and there is no call by which it could say so later.
 */
module Farewells {
  import opened Common
  import opened Queues
  import opened Abi
  import opened Lifecycle
  import opened Invariant
  import opened Entries
  import opened EntriesHttp
  import opened Runs
  import opened StateCoherence
  import opened Minting
  import opened Guarantees

  /** One call says that a context is done, the other deletes it. */
  predicate IsPair(c: Call, d: Call, id: nat) {
    c.plugin == d.plugin && c.what == OnDone(id) && d.what == OnDelete(id)
  }

  predicate IsFarewell(what: What) {
    what.OnDone? || what.OnDelete?
  }

  /** Each call that says done is followed by the one that deletes the same context, and no call
      deletes without it. */
  ghost predicate Paired(calls: seq<Call>) {
    && (forall k :: 0 <= k < |calls| && calls[k].what.OnDone? ==>
          k + 1 < |calls| && IsPair(calls[k], calls[k + 1], calls[k].what.id))
    && (forall k :: 0 <= k < |calls| && calls[k].what.OnDelete? ==>
          k > 0 && IsPair(calls[k - 1], calls[k], calls[k].what.id))
  }

  // ------------------------------------------------------------------------------------
  // All entries keep calls paired

  lemma OtherCallPaired(w: World, pl: Ref, what: What)
    requires Paired(w.calls) && !IsFarewell(what)
    ensures Paired(Emit(w, pl, what).calls)
  {
    var calls := Emit(w, pl, what).calls;
    assert forall k :: 0 <= k < |w.calls| ==> calls[k] == w.calls[k];
  }

  lemma ReleasePaired(w: World, pl: Ref, id: nat)
    requires Paired(w.calls)
    ensures Paired(Emit(Emit(w, pl, OnDone(id)), pl, OnDelete(id)).calls)
  {
    var calls := Emit(Emit(w, pl, OnDone(id)), pl, OnDelete(id)).calls;
    assert forall k :: 0 <= k < |w.calls| ==> calls[k] == w.calls[k];
  }

  lemma FreePluginPaired(w: World, pl: Ref)
    requires Paired(w.calls) && pl in w.plugins
    ensures Paired(FreePlugin(w, pl).calls)
  {
    hide Paired, Emit;
    OtherCallPaired(w, pl, Unloaded);
  }

  lemma RetireCtxPaired(w: World, p: Ref)
    requires Paired(w.calls) && OwnedCtx(w, p)
    ensures Paired(RetireCtx(w, p).calls) && w.pctxs[p].plugin in RetireCtx(w, p).plugins
  {
    hide Paired, Emit;
    ReleasePaired(w, w.pctxs[p].plugin, w.pctxs[p].id);
  }

  lemma FreeCtxPaired(w: World, p: Ref)
    requires Paired(w.calls) && OwnedCtx(w, p)
    ensures Paired(FreeCtx(w, p).calls)
  {
    hide Paired, RetireCtx, FreePlugin;
    if w.pctxs[p].occupied == [] {
      RetireCtxPaired(w, p);
      FreePluginPaired(RetireCtx(w, p), w.pctxs[p].plugin);
    }
  }

  lemma DeleteCtxPaired(w: World, p: Ref)
    requires Paired(w.calls) && OwnedCtx(w, p)
    ensures Paired(DeleteCtx(w, p).calls)
  {
    hide Paired, FreeCtx;
    FreeCtxPaired(MarkCtx(w, p), p);
  }

  lemma CleanupOnePaired(w: World, r: ReqId)
    requires Paired(w.calls) && HasFirst(w, r)
    ensures Paired(CleanupOne(w, r).calls)
  {
    hide Paired, FreeCtx;
    var h := w.requests[r][0];
    var p := w.hctxs[h].parent;
    ReleasePaired(w, w.pctxs[p].plugin, w.hctxs[h].id);
    FreeCtxPaired(RetireHttp(w, r), p);
  }

  lemma {:induction false} CleanupPaired(w: World, r: ReqId)
    requires Inv(w) && r in w.touched && Paired(w.calls)
    ensures Paired(Cleanup(w, r).calls)
    decreases if r in w.requests then |w.requests[r]| else 0
  {
    hide Inv, CleanupOne, Paired;
    if r in w.requests && w.requests[r] != [] {
      CleanupOneKeeps(w, r);
      CleanupOneFrame(w, r);
      CleanupOnePaired(w, r);
      CleanupPaired(CleanupOne(w, r), r);
    }
  }

  lemma ConfiguringPaired(w: World, p: Ref, garbage: Option<Bytes>)
    requires Paired(w.calls) && OwnedCtx(w, p)
    ensures Paired(Configuring(w, p, garbage).calls) && OwnedCtx(Configuring(w, p, garbage), p)
  {
    hide Paired, ClearState, Emit;
    var pl := w.pctxs[p].plugin;
    var w1 := w.(pctxs := w.pctxs[p := w.pctxs[p].(body := garbage)], curState := Some(OfCtx(pl, p)));
    OtherCallPaired(w1, pl, OnConfigure(w.pctxs[p].id));
    ClearCalls(Emit(w1, pl, OnConfigure(w.pctxs[p].id)));
    ConfiguringScope(w, p, garbage);
  }

  lemma ConfiguredPaired(w: World, p: Ref, o: ConfigureAnswers)
    requires Paired(w.calls) && OwnedCtx(w, p)
    ensures Paired(Configured(w, p, o).calls)
  {
    hide Paired, DeleteCtx, Configuring;
    DeleteCtxPaired(w, p);
    ConfiguringPaired(w, p, o.garbage);
    DeleteCtxPaired(Configuring(w, p, o.garbage), p);
  }

  lemma CreatedPaired(w: World, pl: Ref, o: ConfigureAnswers)
    requires Paired(w.calls) && Spare(w, pl)
    ensures Paired(Created(w, pl, o).calls)
  {
    hide Paired, Configured, Emit;
    var ok := o.createRc == NGX_OK;
    OtherCallPaired(SetState(w, OfPlugin(pl)), pl, ContextCreate(w.pctxs[Last(w.plugins[pl].free)].id, 0, ok));
    AnnounceSpare(w, pl, ok);
    if ok {
      AnnounceState(w, pl);
      ActivateCtxScope(AnnounceCtx(w, pl, true), pl, o.poolOk);
      ConfiguredPaired(ActivateCtx(AnnounceCtx(w, pl, true), pl, o.poolOk), Last(w.plugins[pl].free), o);
    }
  }

  lemma AnnounceState(w: World, pl: Ref)
    requires Spare(w, pl)
    ensures AnnounceCtx(w, pl, true).curState == Some(OfPlugin(pl))
  {
  }

  lemma ConfigurePaired(w: World, pl: Ref, o: ConfigureAnswers)
    requires Inv(w) && Paired(w.calls) && pl in w.pluginHandles
    ensures Paired(Configuration(w, pl, o).calls)
  {
    hide Inv, Paired, Created, TakeCtx;
    HandleConfigures(w, pl);
    if w.plugins[pl].free != [] || o.recordOk {
      TakeCtxSees(w, pl);
      CreatedPaired(TakeCtx(w, pl), pl, o);
    }
  }

  lemma CreateHttpPaired(w: World, p: Ref, r: ReqId, o: FetchAnswers)
    requires Paired(w.calls) && CanServe(w, p) && r in w.requests
    ensures Paired(CreateHttp(w, p, r, o).calls)
  {
    hide Paired, TakeHttp, Emit;
    if w.pctxs[p].free != [] || o.recordOk {
      var w1 := TakeHttp(w, p);
      TakenIsThere(w, p);
      TakeHttpCalls(w, p);
      var h := Last(w1.pctxs[p].free);
      OtherCallPaired(w1, w1.pctxs[p].plugin, ContextCreate(w1.hctxs[h].id, w1.pctxs[p].id, o.createRc == NGX_OK));
    }
  }

  lemma TakeHttpCalls(w: World, p: Ref)
    requires CanServe(w, p)
    ensures TakeHttp(w, p).calls == w.calls && p in TakeHttp(w, p).pctxs
  {
  }

  lemma FetchPaired(w: World, p: Ref, r: ReqId, o: FetchAnswers)
    requires Paired(w.calls) && CanServe(w, p)
    ensures Paired(Fetch(w, p, r, o).calls)
  {
    hide Paired, CreateHttp;
    var w1 := w.(touched := w.touched + {r});
    if (r in w.touched || o.moduleCtxOk) && (r in w.requests || o.arrayOk) && Entry(w1, r, p).None? {
      CreateHttpPaired(AddArray(w1, r), p, r, o);
    }
  }

  lemma CallbackPaired(w: World, pl: Ref, what: What)
    requires Paired(w.calls) && !IsFarewell(what)
    ensures Paired(ClearState(w).calls) && Paired(ClearState(Emit(w, pl, what)).calls)
  {
    hide Paired, ClearState, Emit;
    OtherCallPaired(w, pl, what);
    ClearCalls(w);
    ClearCalls(Emit(w, pl, what));
  }

  lemma ArriveCalls(w: World, p: Ref, body: Option<Bytes>)
    requires CanServe(w, p)
    ensures Arrive(w, p, body).calls == w.calls
  {
  }

  lemma ServicePaired(w: World, p: Ref, r: ReqId, body: Option<Bytes>, o: FetchAnswers)
    requires Inv(w) && Paired(w.calls) && p in w.ctxHandles
    ensures Paired(Service(w, p, r, body, o).calls) && Paired(CallResponse(w, p, r, o).calls)
  {
    hide Inv, Paired, Fetch, Arrive, ClearState, Emit;
    HandleServes(w, p);
    ArriveCalls(w, p, body);
    ArriveCalls(w, p, None);
    var w1, w2 := Fetch(Arrive(w, p, body), p, r, o), Fetch(Arrive(w, p, None), p, r, o);
    FetchPaired(Arrive(w, p, body), p, r, o);
    FetchPaired(Arrive(w, p, None), p, r, o);
    var e := Entry(w1, r, p);
    CallbackPaired(w1, w.pctxs[p].plugin, OnStream(if e.Some? then w1.hctxs[e.value].id else 0, body));
    CallbackPaired(w2, w.pctxs[p].plugin, OnHttpCallResponse(w.pctxs[p].id));
  }

  lemma LoadPaired(w: World, o: LoadAnswers)
    requires Paired(w.calls)
    ensures Paired(Load(w, o).calls)
  {
    hide Paired, Emit;
    OtherCallPaired(w, w.next, Loaded(o.hasStart));
    OtherCallPaired(Emit(w, w.next, Loaded(o.hasStart)), w.next, Unloaded);
  }

  lemma UnloadPaired(w: World, pl: Ref)
    requires Paired(w.calls) && pl in w.plugins
    ensures Paired(Unload(w, pl).calls)
  {
    hide Paired, FreePlugin;
    FreePluginPaired(MarkPlugin(w, pl), pl);
  }

  lemma NextPaired(w: World, s: Step)
    requires Inv(w) && Enabled(w, s) && Paired(w.calls)
    ensures Paired(Next(w, s).calls)
  {
    hide Inv, Paired, Configuration, Service, CallResponse, Cleanup, DeleteCtx, Unload, Load;
    match s
    case LoadPlugin(o) => LoadPaired(w, o);
    case ConfigurePlugin(pl, o) => ConfigurePaired(w, pl, o);
    case Serve(p, r, body, o) => ServicePaired(w, p, r, body, o);
    case ServeCallResponse(p, r, o) => ServicePaired(w, p, r, None, o);
    case EndRequest(r) => CleanupPaired(w, r);
    case FinalizeCtx(p) =>
      HandleServes(w, p);
      DeleteCtxPaired(w, p);
    case FinalizePlugin(pl) =>
      HandleConfigures(w, pl);
      UnloadPaired(w, pl);
  }

  /** In every run each context is deleted by the call that follows the one that says done. */
  lemma {:induction false} DoneIsFollowedByDelete(ss: seq<Step>)
    requires Legal(ss)
    ensures Paired(Run(ss).calls)
    decreases |ss|
  {
    hide Inv, Next, Enabled, Paired;
    if ss == [] {
      NoCalls(Run(ss));
    } else {
      DoneIsFollowedByDelete(ss[..|ss| - 1]);
      NextPaired(Run(ss[..|ss| - 1]), ss[|ss| - 1]);
    }
  }

  lemma NoCalls(w: World)
    requires w.calls == []
    ensures Paired(w.calls)
  {
  }

  // ------------------------------------------------------------------------------------
  // The answers

  /** The k-th call deletes a context whose guest has said it is done when it was asked last. */
  ghost predicate AgreesToGo(calls: seq<Call>, answers: nat -> bool, k: nat)
    requires k < |calls| && calls[k].what.OnDelete?
  {
    exists j :: 0 <= j < k && Asked(calls, j, k) && answers(j)
  }

  /** The j-th call is the last before the k-th that asks about the context that the k-th deletes. */
  ghost predicate Asked(calls: seq<Call>, j: nat, k: nat)
    requires j < k < |calls| && calls[k].what.OnDelete?
  {
    IsPair(calls[j], calls[k], calls[k].what.id)
    && forall i :: j < i < k ==> !IsPair(calls[i], calls[k], calls[k].what.id)
  }

  /** All contexts of some guests that are deleted have agreed to go. */
  ghost predicate AllAgree(calls: seq<Call>, answers: nat -> bool, of_: Ref -> bool) {
    forall k: nat :: k < |calls| && calls[k].what.OnDelete? && of_(calls[k].plugin) ==> AgreesToGo(calls, answers, k)
  }

  /** Each time one of these guests is asked, it agrees at once. */
  ghost predicate AgreeAtOnce(calls: seq<Call>, answers: nat -> bool, of_: Ref -> bool) {
    forall k: nat :: k < |calls| && calls[k].what.OnDone? && of_(calls[k].plugin) ==> answers(k)
  }

  lemma ConsentOf(calls: seq<Call>, answers: nat -> bool, of_: Ref -> bool)
    requires Paired(calls)
    ensures AllAgree(calls, answers, of_) <==> AgreeAtOnce(calls, answers, of_)
  {
    forall k: nat | k < |calls| && calls[k].what.OnDelete?
      ensures k > 0 && (AgreesToGo(calls, answers, k) <==> answers(k - 1))
    {
      assert Asked(calls, k - 1, k);
    }
    forall k: nat | k < |calls| && calls[k].what.OnDone?
      ensures k + 1 < |calls| && calls[k + 1].what.OnDelete?
    {
      assert IsPair(calls[k], calls[k + 1], calls[k].what.id);
    }
    if AllAgree(calls, answers, of_) {
      forall k: nat | k < |calls| && calls[k].what.OnDone? && of_(calls[k].plugin)
        ensures answers(k)
      {
        assert AgreesToGo(calls, answers, k + 1);
      }
    }
  }

  /** Whatever guests answer to proxy_on_done in a run: their contexts are all deleted with their
      consent exactly when they consent at once whenever they are asked. */
  lemma ConsentIsNotWaitedFor(ss: seq<Step>, answers: nat -> bool, of_: Ref -> bool)
    requires Legal(ss)
    ensures AllAgree(Run(ss).calls, answers, of_) <==> AgreeAtOnce(Run(ss).calls, answers, of_)
  {
    hide Inv, Next, Enabled, AllAgree, AgreeAtOnce, Paired;
    DoneIsFollowedByDelete(ss);
    ConsentOf(Run(ss).calls, answers, of_);
  }

  /** The whole of the ABI lifecycle, answers included: a guest has received a history that the ABI
      allows, and no context of it was deleted without its consent, exactly when its plugin has minted
      fewer than 2^32 ids and it has agreed at once whenever it was asked. */
  lemma GuestIsTreatedAsAgreed(ss: seq<Step>, pl: Ref, answers: nat -> bool)
    requires Legal(ss)
    ensures Replay(CallsTo(Run(ss).calls, pl)).Some? && AllAgree(Run(ss).calls, answers, q => q == pl)
       <==> MintCount(ss, pl) < UINT32 && AgreeAtOnce(Run(ss).calls, answers, q => q == pl)
  {
    hide Inv, Next, Enabled, MintCount, CallsTo, Replay, AllAgree, AgreeAtOnce;
    GuestSeesLegalHistory(ss, pl);
    ConsentIsNotWaitedFor(ss, answers, q => q == pl);
  }
}
