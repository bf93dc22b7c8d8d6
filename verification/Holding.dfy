/**
 An HTTP context that a request has stays where it is until the request is over: whatever happens
 to other contexts, plugins and requests meanwhile, a lookup finds it again.
 */
module Holding {
  import opened Common
  import opened Queues
  import opened Abi
  import opened Lifecycle
  import opened Invariant
  import opened Entries
  import opened EntriesHttp
  import opened Runs
  import opened StateCoherence
  import opened Dangling

  /** The array of r only grows, and HTTP contexts that stay do not change. */
  ghost predicate KeepsEntries(w: World, w': World, r: ReqId) {
    && (r in w.requests ==> r in w'.requests && w.requests[r] <= w'.requests[r])
    && forall h :: h in w.hctxs && h in w'.hctxs ==> w'.hctxs[h] == w.hctxs[h]
  }

  /** The arrays of requests stay as they are, HTTP contexts only go, and of the handles on plugin
      contexts none but those in `gone` does. */
  ghost predicate Bystands(w: World, w': World, gone: set<Ref>) {
    && w'.requests == w.requests && w'.touched == w.touched && w.ctxHandles - gone <= w'.ctxHandles
    && forall h :: h in w'.hctxs ==> h in w.hctxs && w'.hctxs[h] == w.hctxs[h]
  }

  /** A match is found again in a longer array of records that are still there. */
  lemma {:induction false} FoundAgain(hctxs: map<Ref, HttpCtx>, hctxs2: map<Ref, HttpCtx>, a: seq<Ref>, b: seq<Ref>,
                                      p: Ref)
    requires a <= b && FindEntry(hctxs, a, p).Some?
    requires forall h :: h in a ==> h in hctxs && h in hctxs2 && hctxs2[h] == hctxs[h]
    ensures FindEntry(hctxs2, b, p) == FindEntry(hctxs, a, p)
  {
    assert b[0] == a[0] && a[0] in a;
    if hctxs[a[0]].parent != p {
      assert forall h :: h in a[1..] ==> h in a;
      FoundAgain(hctxs, hctxs2, a[1..], b[1..], p);
    }
  }

  lemma ArrayIsLive(w: World, r: ReqId)
    requires Structure(w) && r in w.requests
    ensures r in w.touched && forall h :: h in w.requests[r] ==> h in w.hctxs
  {
    hide PluginQueues, ChildQueues, Pools, Handles, Ids, Counters, Addresses;
  }

  lemma EntryStays(w: World, w': World, r: ReqId, p: Ref)
    requires Structure(w) && Structure(w') && KeepsEntries(w, w', r) && Entry(w, r, p).Some?
    ensures Entry(w', r, p) == Entry(w, r, p)
  {
    hide Structure;
    ArrayIsLive(w, r);
    ArrayIsLive(w', r);
    assert forall h :: h in w.requests[r] ==> h in w'.requests[r];
    FoundAgain(w.hctxs, w'.hctxs, w.requests[r], w'.requests[r], p);
  }

  // ------------------------------------------------------------------------------------
  // Steps

  lemma DeleteCtxBystands(w: World, p: Ref)
    requires OwnedCtx(w, p)
    ensures Bystands(w, DeleteCtx(w, p), {p})
  {
    hide FreeCtx;
    FreeCtxShrinks(MarkCtx(w, p), p);
    FreeCtxFrame(MarkCtx(w, p), p);
  }

  lemma UnloadBystands(w: World, pl: Ref)
    requires pl in w.plugins
    ensures Bystands(w, Unload(w, pl), {})
  {
    hide FreePlugin;
    FreePluginShrinks(MarkPlugin(w, pl), pl);
    FreePluginFrame(MarkPlugin(w, pl), pl);
  }

  lemma ActivatedEntries(w: World, pl: Ref, ok: bool, poolOk: bool)
    requires Spare(w, pl)
    ensures var w1 := AnnounceCtx(w, pl, ok);
      && Spare(w1, pl)
      && Bystands(w, RotateCtx(w1, pl), {})
      && (var w2 := ActivateCtx(w1, pl, poolOk); Bystands(w, w2, {}) && OwnedCtx(w2, Last(w.plugins[pl].free)))
  {
  }

  lemma CreatedBystands(w: World, pl: Ref, o: ConfigureAnswers)
    requires Spare(w, pl)
    ensures Bystands(w, Created(w, pl, o), {Last(w.plugins[pl].free)})
  {
    hide DeleteCtx, ActivateCtx, RotateCtx, AnnounceCtx, Configuring;
    ActivatedEntries(w, pl, o.createRc == NGX_OK, o.poolOk);
    if o.createRc == NGX_OK {
      var w2, p := ActivateCtx(AnnounceCtx(w, pl, true), pl, o.poolOk), Last(w.plugins[pl].free);
      DeleteCtxBystands(w2, p);
      ConfiguringIs(w2, p, o.garbage);
      ConfiguringScope(w2, p, o.garbage);
      DeleteCtxBystands(Configuring(w2, p, o.garbage), p);
    }
  }

  lemma ConfigureBystands(w: World, pl: Ref, o: ConfigureAnswers)
    requires Inv(w) && pl in w.pluginHandles
    ensures Bystands(w, Configuration(w, pl, o), {})
  {
    hide Inv, Created, TakeCtx;
    HandleConfigures(w, pl);
    if w.plugins[pl].free != [] || o.recordOk {
      TakeCtxSees(w, pl);
      TakeCtxBystands(w, pl);
      CreatedBystands(TakeCtx(w, pl), pl, o);
      SpareHasNoHandle(w, pl);
    }
  }

  lemma TakeCtxBystands(w: World, pl: Ref)
    requires pl in w.plugins && forall p :: p in w.plugins[pl].free ==> p in w.pctxs && w.pctxs[p].plugin == pl
    ensures Bystands(w, TakeCtx(w, pl), {})
  {
  }

  lemma SpareHasNoHandle(w: World, pl: Ref)
    requires Inv(w) && pl in w.plugins
    ensures NextCtx(w, pl) !in w.ctxHandles
  {
    hide ChildQueues, Pools, Requests, Ids, Counters, Obeyed, Needed, Quiet;
    if w.plugins[pl].free != [] {
      assert Last(w.plugins[pl].free) in w.plugins[pl].free;
    }
  }

  lemma TakeHttpEntries(w: World, p: Ref)
    requires CanServe(w, p) && w.nextHttp !in w.hctxs
    ensures var w' := TakeHttp(w, p);
      && w'.requests == w.requests && (forall h :: h in w.hctxs ==> h in w'.hctxs && w'.hctxs[h] == w.hctxs[h])
      && w'.touched == w.touched && w'.ctxHandles == w.ctxHandles
      && p in w'.pctxs && w'.pctxs[p].free != [] && Last(w'.pctxs[p].free) in w'.hctxs
  {
    if w.pctxs[p].free != [] {
      assert Last(w.pctxs[p].free) in w.pctxs[p].free;
    }
  }

  lemma PlaceHttpEntries(w: World, p: Ref, q: ReqId, ok: bool)
    requires p in w.pctxs && w.pctxs[p].free != [] && Last(w.pctxs[p].free) in w.hctxs && q in w.requests
    ensures var w' := RotateHttp(AnnounceHttp(w, p, ok), p);
      w'.requests == w.requests && w'.hctxs == w.hctxs && w'.touched == w.touched && w'.ctxHandles == w.ctxHandles
    ensures var w' := ActivateHttp(AnnounceHttp(w, p, ok), p, q);
      && w'.requests == w.requests[q := w.requests[q] + [Last(w.pctxs[p].free)]] && w'.hctxs == w.hctxs
      && w'.touched == w.touched && w'.ctxHandles == w.ctxHandles
  {
  }

  lemma CreateHttpKeepsEntries(w: World, p: Ref, q: ReqId, o: FetchAnswers, r: ReqId)
    requires CanServe(w, p) && q in w.requests && w.nextHttp !in w.hctxs
    ensures KeepsEntries(w, CreateHttp(w, p, q, o), r)
  {
    hide TakeHttp, AnnounceHttp, RotateHttp, ActivateHttp;
    if w.pctxs[p].free != [] || o.recordOk {
      TakeHttpEntries(w, p);
      PlaceHttpEntries(TakeHttp(w, p), p, q, o.createRc == NGX_OK);
    }
  }

  lemma FetchKeepsEntries(w: World, p: Ref, q: ReqId, o: FetchAnswers, r: ReqId)
    requires CanServe(w, p) && w.nextHttp !in w.hctxs
    ensures KeepsEntries(w, Fetch(w, p, q, o), r)
  {
    hide CreateHttp;
    var w1 := w.(touched := w.touched + {q});
    if (q in w.touched || o.moduleCtxOk) && (q in w.requests || o.arrayOk) && Entry(w1, q, p).None? {
      CreateHttpKeepsEntries(AddArray(w1, q), p, q, o, r);
    }
  }

  /** Requests, HTTP contexts and handles are the same. */
  predicate SameHolders(w: World, w': World) {
    && w'.requests == w.requests && w'.hctxs == w.hctxs && w'.touched == w.touched
    && w'.ctxHandles == w.ctxHandles && w'.nextHttp == w.nextHttp
  }

  lemma ClearEntries(w: World)
    ensures SameHolders(w, ClearState(w))
  {
  }

  lemma EmitEntries(w: World, pl: Ref, what: What)
    ensures SameHolders(w, Emit(w, pl, what))
  {
    hide StateLive, VisibleBody;
  }

  lemma LeaveEntries(w: World, pl: Ref, what: What)
    ensures SameHolders(w, ClearState(w)) && SameHolders(w, ClearState(Emit(w, pl, what)))
  {
    hide ClearState, Emit;
    EmitEntries(w, pl, what);
    ClearEntries(w);
    ClearEntries(Emit(w, pl, what));
  }

  lemma ArriveEntries(w: World, p: Ref, body: Option<Bytes>)
    requires CanServe(w, p)
    ensures SameHolders(w, Arrive(w, p, body)) && Arrive(w, p, body).pctxs[p].free == w.pctxs[p].free
  {
  }

  lemma NextHttpIsUnused(w: World)
    requires Inv(w)
    ensures w.nextHttp !in w.hctxs
  {
    hide Obeyed, Needed, Quiet;
  }

  lemma ServeKeepsEntries(w: World, p: Ref, q: ReqId, body: Option<Bytes>, o: FetchAnswers, r: ReqId)
    requires Inv(w) && p in w.ctxHandles
    ensures KeepsEntries(w, Service(w, p, q, body, o), r) && KeepsEntries(w, CallResponse(w, p, q, o), r)
  {
    hide Inv, Fetch, Arrive, ClearState, Emit;
    HandleServes(w, p);
    NextHttpIsUnused(w);
    ArriveEntries(w, p, body);
    ArriveEntries(w, p, None);
    var w1, w2 := Fetch(Arrive(w, p, body), p, q, o), Fetch(Arrive(w, p, None), p, q, o);
    FetchKeepsEntries(Arrive(w, p, body), p, q, o, r);
    FetchKeepsEntries(Arrive(w, p, None), p, q, o, r);
    var e := Entry(w1, q, p);
    LeaveEntries(w1, w.pctxs[p].plugin, OnStream(if e.Some? then w1.hctxs[e.value].id else 0, body));
    LeaveEntries(w2, w.pctxs[p].plugin, OnHttpCallResponse(w.pctxs[p].id));
  }

  lemma CleanupKeepsEntries(w: World, q: ReqId, r: ReqId)
    requires Inv(w) && q in w.touched && q != r
    ensures KeepsEntries(w, Cleanup(w, q), r)
  {
    hide Inv, Turns;
    if q in w.requests {
      CleanupIsTurns(w, q);
    }
  }

  lemma LoadBystands(w: World, o: LoadAnswers)
    ensures Bystands(w, Load(w, o), {})
  {
  }

  /** A step of the module that no request takes part in. */
  predicate IsOwnStep(s: Step) {
    s.LoadPlugin? || s.ConfigurePlugin? || s.FinalizeCtx? || s.FinalizePlugin?
  }

  lemma OwnStepBystands(w: World, s: Step)
    requires Inv(w) && Enabled(w, s) && IsOwnStep(s)
    ensures Bystands(w, Next(w, s), if s.FinalizeCtx? then {s.p} else {})
  {
    hide Inv, Configuration, DeleteCtx, Unload, Load;
    match s
    case LoadPlugin(o) => LoadBystands(w, o);
    case ConfigurePlugin(pl, o) => ConfigureBystands(w, pl, o);
    case FinalizeCtx(p) =>
      HandleServes(w, p);
      DeleteCtxBystands(w, p);
    case FinalizePlugin(pl) =>
      HandleConfigures(w, pl);
      UnloadBystands(w, pl);
  }

  lemma StepKeepsEntries(w: World, s: Step, r: ReqId)
    requires Inv(w) && Enabled(w, s) && s != EndRequest(r)
    ensures KeepsEntries(w, Next(w, s), r)
  {
    hide Inv, Configuration, Service, CallResponse, Cleanup, DeleteCtx, Unload, Load;
    match s
    case LoadPlugin(_) => OwnStepBystands(w, s);
    case ConfigurePlugin(_, _) => OwnStepBystands(w, s);
    case Serve(p, q, body, o) => ServeKeepsEntries(w, p, q, body, o, r);
    case ServeCallResponse(p, q, o) => ServeKeepsEntries(w, p, q, None, o, r);
    case EndRequest(q) => CleanupKeepsEntries(w, q, r);
    case FinalizeCtx(_) => OwnStepBystands(w, s);
    case FinalizePlugin(_) => OwnStepBystands(w, s);
  }

  // ------------------------------------------------------------------------------------
  // Runs

  lemma InvStructure(w: World)
    requires Inv(w)
    ensures Structure(w)
  {
    hide Structure, Obeyed, Needed, Quiet;
  }

  /** Once a request has an HTTP context under a plugin context, every lookup in the rest of a run
      finds that one, until the request is over. */
  lemma {:induction false} EntryStaysUntilTheEnd(ss: seq<Step>, n: nat, r: ReqId, p: Ref)
    requires Legal(ss) && n <= |ss| && Legal(ss[..n]) && Entry(Run(ss[..n]), r, p).Some?
    requires forall k :: n <= k < |ss| ==> ss[k] != EndRequest(r)
    ensures Entry(Run(ss), r, p) == Entry(Run(ss[..n]), r, p)
    decreases |ss|
  {
    hide Inv, Next, Enabled, Structure, KeepsEntries, Entry;
    if n == |ss| {
      assert ss[..n] == ss;
    } else {
      var init, s := ss[..|ss| - 1], ss[|ss| - 1];
      assert init[..n] == ss[..n];
      EntryStaysUntilTheEnd(init, n, r, p);
      StepKeepsEntries(Run(init), s, r);
      InvStructure(Run(init));
      InvStructure(Run(ss));
      EntryStays(Run(init), Run(ss), r, p);
    }
  }

  /** So the callback of a callout that was sent for a request and a plugin context is run, whatever
      the allocators and the guest would answer, if the request is not over and Lua still holds the
      context. */
  lemma CallbackFindsItsContext(ss: seq<Step>, n: nat, r: ReqId, p: Ref, o: FetchAnswers)
    requires Legal(ss) && n <= |ss| && Legal(ss[..n]) && Entry(Run(ss[..n]), r, p).Some?
    requires forall k :: n <= k < |ss| ==> ss[k] != EndRequest(r)
    requires p in Run(ss).ctxHandles
    ensures RunsCallResponse(Run(ss), p, r, o)
  {
    hide Inv, Next, Enabled, Structure;
    EntryStaysUntilTheEnd(ss, n, r, p);
    InvStructure(Run(ss));
    ArrayIsLive(Run(ss), r);
    HandleServes(Run(ss), p);
    FoundIsServed(Run(ss), p, r, o);
  }

  lemma FoundIsServed(w: World, p: Ref, r: ReqId, o: FetchAnswers)
    requires CanServe(w, p) && Entry(w, r, p).Some? && r in w.touched
    ensures OnHttpCallResp(w, p, r, o).1
  {
    hide Arrive, ClearState;
    ArriveEntries(w, p, None);
    assert w.touched + {r} == w.touched;
  }
}
