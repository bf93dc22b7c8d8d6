/**
 Which steps mint ids, counted over runs: what the counters stand at, when they wrap, and that an
 id that was minted is never minted again before that.
 */
module Minting {
  import opened Common
  import opened Queues
  import opened Abi
  import opened Lifecycle
  import opened Invariant
  import opened Entries
  import opened EntriesHttp
  import opened Runs

  // ------------------------------------------------------------------------------------
  // Which steps mint

  /** A phase of r under p gets as far as a new HTTP context record. */
  predicate MintsHttp(w: World, p: Ref, r: ReqId, o: FetchAnswers) {
    && (r in w.touched || o.moduleCtxOk) && (r in w.requests || o.arrayOk) && Entry(w, r, p).None?
    && p in w.pctxs && w.pctxs[p].free == [] && o.recordOk
  }

  /** The step takes a new id for a context of pl: there is no record to recycle, and memory for one. */
  predicate Mints(w: World, s: Step, pl: Ref) {
    match s
    case ConfigurePlugin(q, o) => q == pl && pl in w.plugins && w.plugins[pl].free == [] && o.recordOk
    case Serve(p, r, _, o) => MintsHttp(w, p, r, o) && w.pctxs[p].plugin == pl
    case ServeCallResponse(p, r, o) => MintsHttp(w, p, r, o) && w.pctxs[p].plugin == pl
    case _ => false
  }

  /** The number of ids that a run takes for contexts of pl. */
  ghost function MintCount(ss: seq<Step>, pl: Ref): nat
    requires Legal(ss)
    decreases |ss|
  {
    if ss == [] then 0
    else
      var init := ss[..|ss| - 1];
      MintCount(init, pl) + if Mints(Run(init), ss[|ss| - 1], pl) then 1 else 0
  }

  // ------------------------------------------------------------------------------------
  // What blocks and entries do to the counters

  ghost predicate SameCounters(w: World, w': World) {
    forall q :: q in w'.plugins ==> q in w.plugins && w'.plugins[q].curCtxId == w.plugins[q].curCtxId
  }

  /** No id is minted. Calls are only ever added. */
  ghost predicate SameMints(w: World, w': World) {
    && w'.minted == w.minted && w'.wrapped == w.wrapped && w.next <= w'.next && w.calls <= w'.calls
    && SameCounters(w, w')
  }

  /** One id is minted, for a context of pl. */
  ghost predicate OneMint(w: World, w': World, pl: Ref) {
    && pl in w.plugins && w.next <= w'.next && w.calls <= w'.calls
    && var id := NextId(w.plugins[pl].curCtxId);
       && w'.wrapped == (if id == 0 then w.wrapped + {pl} else w.wrapped)
       && (forall k :: k in w.minted && k != (pl, id) ==> k in w'.minted && w'.minted[k] == w.minted[k])
       && (forall q :: q in w'.plugins ==>
             q in w.plugins && w'.plugins[q].curCtxId == if q == pl then id else w.plugins[q].curCtxId)
  }

  /** Some call after the first n announces a context of pl under the id. */
  ghost predicate Announced(calls: seq<Call>, n: nat, pl: Ref, id: nat) {
    exists i :: n <= i < |calls| && calls[i].plugin == pl && calls[i].what.ContextCreate? && calls[i].what.id == id
  }

  lemma FreePluginMints(w: World, pl: Ref)
    requires pl in w.plugins
    ensures SameMints(w, FreePlugin(w, pl))
  {
  }

  lemma RetireCtxMints(w: World, p: Ref)
    requires OwnedCtx(w, p)
    ensures SameMints(w, RetireCtx(w, p)) && w.pctxs[p].plugin in RetireCtx(w, p).plugins
  {
  }

  lemma SameMintsTrans(w1: World, w2: World, w3: World)
    requires SameMints(w1, w2) && SameMints(w2, w3)
    ensures SameMints(w1, w3)
  {
  }

  lemma FreeCtxMints(w: World, p: Ref)
    requires OwnedCtx(w, p)
    ensures SameMints(w, FreeCtx(w, p))
  {
    hide RetireCtx, FreePlugin;
    RetireCtxMints(w, p);
    if w.pctxs[p].occupied == [] {
      FreePluginMints(RetireCtx(w, p), w.pctxs[p].plugin);
    }
  }

  lemma DeleteCtxMints(w: World, p: Ref)
    requires OwnedCtx(w, p)
    ensures SameMints(w, DeleteCtx(w, p))
  {
    hide FreeCtx;
    var w' := w.(pctxs := w.pctxs[p := w.pctxs[p].(done := true)], ctxHandles := w.ctxHandles - {p});
    assert OwnedCtx(w', p);
    FreeCtxMints(w', p);
  }

  lemma RetireHttpMints(w: World, r: ReqId)
    requires HasFirst(w, r)
    ensures SameMints(w, RetireHttp(w, r)) && OwnedCtx(RetireHttp(w, r), w.hctxs[w.requests[r][0]].parent)
  {
  }

  lemma CleanupOneMints(w: World, r: ReqId)
    requires HasFirst(w, r)
    ensures SameMints(w, CleanupOne(w, r))
  {
    hide FreeCtx, RetireHttp, SameMints;
    RetireHttpMints(w, r);
    FreeCtxMints(RetireHttp(w, r), w.hctxs[w.requests[r][0]].parent);
    SameMintsTrans(w, RetireHttp(w, r), FreeCtx(RetireHttp(w, r), w.hctxs[w.requests[r][0]].parent));
  }

  lemma {:induction false} CleanupMints(w: World, r: ReqId)
    requires Inv(w) && r in w.touched
    ensures SameMints(w, Cleanup(w, r))
    decreases if r in w.requests then |w.requests[r]| else 0
  {
    hide Inv, CleanupOne;
    if r in w.requests && w.requests[r] != [] {
      CleanupOneKeeps(w, r);
      CleanupOneFrame(w, r);
      CleanupOneMints(w, r);
      CleanupMints(CleanupOne(w, r), r);
    }
  }

  lemma UnloadMints(w: World, pl: Ref)
    requires pl in w.plugins
    ensures SameMints(w, Unload(w, pl))
  {
    hide FreePlugin;
    FreePluginMints(w.(plugins := w.plugins[pl := w.plugins[pl].(done := true)],
                       pluginHandles := w.pluginHandles - {pl}), pl);
  }

  // ------------------------------------------------------------------------------------
  // Configuring

  lemma ConfiguringMints(w: World, p: Ref, garbage: Option<Bytes>)
    requires OwnedCtx(w, p)
    ensures SameMints(w, Configuring(w, p, garbage)) && OwnedCtx(Configuring(w, p, garbage), p)
  {
    hide Configuring;
    ConfiguringIs(w, p, garbage);
    ConfiguringCalls(w, p, garbage);
  }

  lemma ConfiguringCalls(w: World, p: Ref, garbage: Option<Bytes>)
    requires OwnedCtx(w, p)
    ensures w.calls <= Configuring(w, p, garbage).calls
  {
  }

  lemma ConfiguredMints(w: World, p: Ref, o: ConfigureAnswers)
    requires OwnedCtx(w, p)
    ensures SameMints(w, Configured(w, p, o))
  {
    hide DeleteCtx, Configuring;
    ConfiguringMints(w, p, o.garbage);
    DeleteCtxMints(w, p);
    DeleteCtxMints(Configuring(w, p, o.garbage), p);
  }

  lemma ActivateCtxMints(w: World, pl: Ref, ok: bool, poolOk: bool)
    requires Spare(w, pl)
    ensures Spare(AnnounceCtx(w, pl, ok), pl)
    ensures SameMints(w, RotateCtx(AnnounceCtx(w, pl, ok), pl))
    ensures SameMints(w, ActivateCtx(AnnounceCtx(w, pl, ok), pl, poolOk))
    ensures OwnedCtx(ActivateCtx(AnnounceCtx(w, pl, ok), pl, poolOk), Last(w.plugins[pl].free))
    ensures var id := w.pctxs[Last(w.plugins[pl].free)].id;
      && Announced(RotateCtx(AnnounceCtx(w, pl, ok), pl).calls, |w.calls|, pl, id)
      && Announced(ActivateCtx(AnnounceCtx(w, pl, ok), pl, poolOk).calls, |w.calls|, pl, id)
  {
    var w1 := AnnounceCtx(w, pl, ok);
    assert w1.calls[|w.calls|].what == ContextCreate(w.pctxs[Last(w.plugins[pl].free)].id, 0, ok);
  }

  lemma AnnouncedEarlier(calls: seq<Call>, calls2: seq<Call>, n: nat, pl: Ref, id: nat)
    requires Announced(calls, n, pl, id) && calls <= calls2
    ensures Announced(calls2, n, pl, id)
  {
    var i :| n <= i < |calls| && calls[i].plugin == pl && calls[i].what.ContextCreate? && calls[i].what.id == id;
    assert calls2[i] == calls[i];
  }

  lemma CreatedMints(w: World, pl: Ref, o: ConfigureAnswers)
    requires Spare(w, pl)
    ensures SameMints(w, Created(w, pl, o))
    ensures Announced(Created(w, pl, o).calls, |w.calls|, pl, w.pctxs[Last(w.plugins[pl].free)].id)
  {
    hide Configured, ActivateCtx, RotateCtx, AnnounceCtx, SameMints;
    ActivateCtxMints(w, pl, o.createRc == NGX_OK, o.poolOk);
    if o.createRc == NGX_OK {
      var w2 := ActivateCtx(AnnounceCtx(w, pl, true), pl, o.poolOk);
      ConfiguredMints(w2, Last(w.plugins[pl].free), o);
      SameMintsTrans(w, w2, Configured(w2, Last(w.plugins[pl].free), o));
      SameMintsCalls(w2, Configured(w2, Last(w.plugins[pl].free), o));
      AnnouncedEarlier(w2.calls, Configured(w2, Last(w.plugins[pl].free), o).calls, |w.calls|, pl,
                       w.pctxs[Last(w.plugins[pl].free)].id);
    }
  }

  lemma SameMintsCalls(w: World, w': World)
    requires SameMints(w, w')
    ensures w.calls <= w'.calls && w.next <= w'.next
  {
  }

  lemma TakeCtxMints(w: World, pl: Ref)
    requires pl in w.plugins
    requires forall p :: p in w.plugins[pl].free ==> p in w.pctxs && w.pctxs[p].plugin == pl
    ensures var w' := TakeCtx(w, pl);
      && Spare(w', pl) && w'.calls == w.calls
      && (w.plugins[pl].free != [] ==> SameMints(w, w'))
      && (w.plugins[pl].free == [] ==>
            OneMint(w, w', pl) && w'.pctxs[Last(w'.plugins[pl].free)].id == NextId(w.plugins[pl].curCtxId))
  {
  }

  lemma OneMintThen(w1: World, w2: World, w3: World, pl: Ref)
    requires OneMint(w1, w2, pl) && SameMints(w2, w3)
    ensures OneMint(w1, w3, pl)
  {
  }

  lemma OneMintAfter(w1: World, w2: World, w3: World, pl: Ref)
    requires SameMints(w1, w2) && OneMint(w2, w3, pl)
    ensures OneMint(w1, w3, pl)
  {
  }

  ghost predicate MintsAndAnnounces(w: World, w': World, pl: Ref) {
    OneMint(w, w', pl) && Announced(w'.calls, |w.calls|, pl, NextId(w.plugins[pl].curCtxId))
  }

  lemma ConfigureMints(w: World, pl: Ref, o: ConfigureAnswers)
    requires Inv(w) && pl in w.pluginHandles
    ensures pl in w.plugins
    ensures var w' := Configuration(w, pl, o);
      if w.plugins[pl].free == [] && o.recordOk then MintsAndAnnounces(w, w', pl) else SameMints(w, w')
  {
    hide Inv, TakeCtx, Created, SameMints, OneMint;
    HandleConfigures(w, pl);
    if w.plugins[pl].free != [] || o.recordOk {
      var w1 := TakeCtx(w, pl);
      TakeCtxMints(w, pl);
      CreatedMints(w1, pl, o);
      if w.plugins[pl].free == [] {
        OneMintThen(w, w1, Created(w1, pl, o), pl);
      } else {
        SameMintsTrans(w, w1, Created(w1, pl, o));
      }
    } else {
      SameMintsRefl(w);
    }
  }

  lemma SameMintsRefl(w: World)
    ensures SameMints(w, w)
  {
  }

  // ------------------------------------------------------------------------------------
  // Serving

  lemma TakeHttpMints(w: World, p: Ref)
    requires CanServe(w, p)
    ensures var w' := TakeHttp(w, p);
      && p in w'.pctxs && w'.pctxs[p].free != [] && Last(w'.pctxs[p].free) in w'.hctxs && w'.requests == w.requests
      && w'.pctxs[p].plugin == w.pctxs[p].plugin && w'.calls == w.calls
      && (w.pctxs[p].free != [] ==> SameMints(w, w'))
      && (w.pctxs[p].free == [] ==>
            && OneMint(w, w', w.pctxs[p].plugin)
            && w'.hctxs[Last(w'.pctxs[p].free)].id == NextId(w.plugins[w.pctxs[p].plugin].curCtxId))
  {
    assert w.pctxs[p].free != [] ==> Last(w.pctxs[p].free) in w.pctxs[p].free;
  }

  lemma HttpBlocksMint(w: World, p: Ref, r: ReqId, ok: bool)
    requires p in w.pctxs && w.pctxs[p].free != [] && Last(w.pctxs[p].free) in w.hctxs && r in w.requests
    ensures SameMints(w, RotateHttp(AnnounceHttp(w, p, ok), p))
      && SameMints(w, ActivateHttp(AnnounceHttp(w, p, ok), p, r))
    ensures var id := w.hctxs[Last(w.pctxs[p].free)].id;
      && Announced(RotateHttp(AnnounceHttp(w, p, ok), p).calls, |w.calls|, w.pctxs[p].plugin, id)
      && Announced(ActivateHttp(AnnounceHttp(w, p, ok), p, r).calls, |w.calls|, w.pctxs[p].plugin, id)
  {
    var w1 := AnnounceHttp(w, p, ok);
    assert w1.calls[|w.calls|].what == ContextCreate(w.hctxs[Last(w.pctxs[p].free)].id, w.pctxs[p].id, ok);
  }

  lemma CreateHttpMints(w: World, p: Ref, r: ReqId, o: FetchAnswers)
    requires CanServe(w, p) && r in w.requests
    ensures var w' := CreateHttp(w, p, r, o);
      if w.pctxs[p].free == [] && o.recordOk then MintsAndAnnounces(w, w', w.pctxs[p].plugin) else SameMints(w, w')
  {
    hide TakeHttp, RotateHttp, ActivateHttp, AnnounceHttp, SameMints, OneMint;
    SameMintsRefl(w);
    if w.pctxs[p].free != [] || o.recordOk {
      var w1, w' := TakeHttp(w, p), CreateHttp(w, p, r, o);
      TakeHttpMints(w, p);
      HttpBlocksMint(w1, p, r, o.createRc == NGX_OK);
      if w.pctxs[p].free == [] {
        OneMintThen(w, w1, w', w.pctxs[p].plugin);
      } else {
        SameMintsTrans(w, w1, w');
      }
    }
  }

  /** A step that changes none of what counts here. */
  lemma Irrelevant(w: World, w': World)
    requires w'.minted == w.minted && w'.wrapped == w.wrapped && w'.next == w.next && w'.plugins == w.plugins
    requires w.calls <= w'.calls
    ensures SameMints(w, w')
  {
  }

  lemma ThenMints(w1: World, w2: World, w3: World, pl: Ref)
    requires SameMints(w1, w2) && w2.calls == w1.calls && MintsAndAnnounces(w2, w3, pl)
    requires pl in w1.plugins && pl in w2.plugins && w2.plugins[pl].curCtxId == w1.plugins[pl].curCtxId
    ensures MintsAndAnnounces(w1, w3, pl)
  {
    OneMintAfter(w1, w2, w3, pl);
  }

  lemma MintsThen(w1: World, w2: World, w3: World, pl: Ref)
    requires MintsAndAnnounces(w1, w2, pl) && SameMints(w2, w3)
    ensures MintsAndAnnounces(w1, w3, pl)
  {
    OneMintThen(w1, w2, w3, pl);
    AnnouncedEarlier(w2.calls, w3.calls, |w1.calls|, pl, NextId(w1.plugins[pl].curCtxId));
  }

  lemma FetchMints(w: World, p: Ref, r: ReqId, o: FetchAnswers)
    requires CanServe(w, p)
    ensures var w' := Fetch(w, p, r, o);
      if MintsHttp(w, p, r, o) then MintsAndAnnounces(w, w', w.pctxs[p].plugin) else SameMints(w, w')
  {
    hide CreateHttp, SameMints, OneMint, Announced;
    var w1 := w.(touched := w.touched + {r});
    Irrelevant(w, w1);
    SameMintsRefl(w);
    if (r in w.touched || o.moduleCtxOk) && (r in w.requests || o.arrayOk) && Entry(w1, r, p).None? {
      var w2 := AddArray(w1, r);
      Irrelevant(w, w2);
      CreateHttpMints(w2, p, r, o);
      if w.pctxs[p].free == [] && o.recordOk {
        ThenMints(w, w2, CreateHttp(w2, p, r, o), w.pctxs[p].plugin);
      } else {
        SameMintsTrans(w, w2, CreateHttp(w2, p, r, o));
      }
    }
  }

  lemma ClearMints(w: World)
    ensures SameMints(w, ClearState(w))
  {
  }

  lemma CallMints(w: World, pl: Ref, what: What)
    ensures SameMints(w, ClearState(Emit(w, pl, what)))
  {
    hide ClearState;
    ClearMints(Emit(w, pl, what));
  }

  lemma ArriveMints(w: World, p: Ref, body: Option<Bytes>, r: ReqId, o: FetchAnswers)
    requires CanServe(w, p)
    ensures var w' := Arrive(w, p, body);
      && SameMints(w, w') && w'.plugins == w.plugins && w'.calls == w.calls && w'.pctxs[p].plugin == w.pctxs[p].plugin
      && (MintsHttp(w', p, r, o) <==> MintsHttp(w, p, r, o))
  {
  }

  lemma ServedMints(w: World, p: Ref, r: ReqId, body: Option<Bytes>, o: FetchAnswers, w': World)
    requires CanServe(w, p)
    requires var w1 := Fetch(Arrive(w, p, body), p, r, o);
      w' == ClearState(w1) || exists what :: w' == ClearState(Emit(w1, w.pctxs[p].plugin, what))
    ensures if MintsHttp(w, p, r, o) then MintsAndAnnounces(w, w', w.pctxs[p].plugin) else SameMints(w, w')
  {
    hide Fetch, Arrive, ClearState, Emit, SameMints, OneMint, Announced, MintsHttp;
    var w0 := Arrive(w, p, body);
    var w1 := Fetch(w0, p, r, o);
    ArriveMints(w, p, body, r, o);
    FetchMints(w0, p, r, o);
    ClearMints(w1);
    if w' != ClearState(w1) {
      var what :| w' == ClearState(Emit(w1, w.pctxs[p].plugin, what));
      CallMints(w1, w.pctxs[p].plugin, what);
    }
    if MintsHttp(w, p, r, o) {
      ThenMints(w, w0, w1, w.pctxs[p].plugin);
      MintsThen(w, w1, w', w.pctxs[p].plugin);
    } else {
      SameMintsTrans(w, w0, w1);
      SameMintsTrans(w, w1, w');
    }
  }

  lemma ServiceMints(w: World, p: Ref, r: ReqId, body: Option<Bytes>, o: FetchAnswers)
    requires Inv(w) && p in w.ctxHandles
    ensures p in w.pctxs
    ensures var w' := Service(w, p, r, body, o);
      if MintsHttp(w, p, r, o) then MintsAndAnnounces(w, w', w.pctxs[p].plugin) else SameMints(w, w')
  {
    hide Inv, Fetch, Arrive, ClearState, Emit, SameMints, OneMint, MintsAndAnnounces, MintsHttp;
    HandleServes(w, p);
    ServedMints(w, p, r, body, o, Service(w, p, r, body, o));
  }

  lemma CallResponseMints(w: World, p: Ref, r: ReqId, o: FetchAnswers)
    requires Inv(w) && p in w.ctxHandles
    ensures p in w.pctxs
    ensures var w' := CallResponse(w, p, r, o);
      if MintsHttp(w, p, r, o) then MintsAndAnnounces(w, w', w.pctxs[p].plugin) else SameMints(w, w')
  {
    hide Inv, Fetch, Arrive, ClearState, Emit, SameMints, OneMint, MintsAndAnnounces, MintsHttp;
    HandleServes(w, p);
    ServedMints(w, p, r, None, o, CallResponse(w, p, r, o));
  }

  // ------------------------------------------------------------------------------------
  // Steps

  /** A new plugin starts at 0. */
  lemma LoadMints(w: World, o: LoadAnswers)
    ensures var w' := Load(w, o);
      && w'.minted == w.minted && w'.wrapped == w.wrapped && w.next <= w'.next && w.calls <= w'.calls
      && forall q :: q in w'.plugins ==>
           if q in w.plugins && q != w.next then w'.plugins[q].curCtxId == w.plugins[q].curCtxId
           else (q == w.next && w'.plugins[q].curCtxId == 0) || (q in w.plugins && w'.plugins[q] == w.plugins[q])
  {
  }

  /** What a step does to all counters. */
  ghost predicate Counted(w: World, s: Step, w': World) {
    && w.next <= w'.next && w.calls <= w'.calls
    && (forall q :: q in w'.plugins ==>
          if q in w.plugins then
            w'.plugins[q].curCtxId == if Mints(w, s, q) then NextId(w.plugins[q].curCtxId) else w.plugins[q].curCtxId
          else w.next <= q && w'.plugins[q].curCtxId == 0)
    && (forall q :: q in w'.wrapped <==>
          q in w.wrapped || (q in w.plugins && Mints(w, s, q) && NextId(w.plugins[q].curCtxId) == 0))
    && (forall q :: q in w.plugins && Mints(w, s, q) ==>
          Announced(w'.calls, |w.calls|, q, NextId(w.plugins[q].curCtxId)))
    && (forall k | k in w.minted
            && (k.0 in w.plugins && Mints(w, s, k.0) ==> k.1 != NextId(w.plugins[k.0].curCtxId)) ::
          k in w'.minted && w'.minted[k] == w.minted[k])
  }

  lemma NoneCounted(w: World, s: Step, w': World)
    requires SameMints(w, w') && forall q :: q in w.plugins ==> !Mints(w, s, q)
    ensures Counted(w, s, w')
  {
    hide Mints;
  }

  lemma OneCounted(w: World, s: Step, w': World, pl: Ref)
    requires MintsAndAnnounces(w, w', pl) && forall q :: q in w.plugins ==> (Mints(w, s, q) <==> q == pl)
    ensures Counted(w, s, w')
  {
    hide Mints;
  }

  lemma LoadCounted(w: World, o: LoadAnswers)
    requires w.next !in w.plugins
    ensures Counted(w, LoadPlugin(o), Load(w, o))
  {
    hide Load;
    LoadMints(w, o);
  }

  lemma NextIsFresh(w: World)
    requires Inv(w)
    ensures w.next !in w.plugins && forall q :: q in w.plugins ==> q < w.next
  {
    hide Obeyed, Needed, Quiet;
  }

  lemma StepCounted(w: World, s: Step)
    requires Inv(w) && Enabled(w, s)
    ensures Counted(w, s, Next(w, s))
  {
    hide Inv, Configuration, Service, CallResponse, Cleanup, DeleteCtx, Unload, Load, SameMints, Counted,
         MintsAndAnnounces, MintsHttp;
    var w' := Next(w, s);
    match s
    case LoadPlugin(o) =>
      NextIsFresh(w);
      LoadCounted(w, o);
    case ConfigurePlugin(pl, o) =>
      ConfigureMints(w, pl, o);
      if Mints(w, s, pl) {
        OneCounted(w, s, w', pl);
      } else {
        NoneCounted(w, s, w');
      }
    case Serve(p, r, body, o) =>
      ServiceMints(w, p, r, body, o);
      if MintsHttp(w, p, r, o) {
        OneCounted(w, s, w', w.pctxs[p].plugin);
      } else {
        NoneCounted(w, s, w');
      }
    case ServeCallResponse(p, r, o) =>
      CallResponseMints(w, p, r, o);
      if MintsHttp(w, p, r, o) {
        OneCounted(w, s, w', w.pctxs[p].plugin);
      } else {
        NoneCounted(w, s, w');
      }
    case EndRequest(r) =>
      CleanupMints(w, r);
      NoneCounted(w, s, w');
    case FinalizeCtx(p) =>
      HandleServes(w, p);
      DeleteCtxMints(w, p);
      NoneCounted(w, s, w');
    case FinalizePlugin(pl) =>
      HandleConfigures(w, pl);
      UnloadMints(w, pl);
      NoneCounted(w, s, w');
  }

  // ------------------------------------------------------------------------------------
  // Runs

  /** What a plugin's counter and its history say after it has minted n ids. */
  ghost predicate CountsAs(w: World, pl: Ref, n: nat) {
    && (pl in w.plugins ==> w.plugins[pl].curCtxId == n % UINT32)
    && (w.next <= pl ==> n == 0)
    && (pl in w.wrapped <==> n >= UINT32)
    && (pl in w.wrapped ==> Announced(w.calls, 0, pl, 0))
  }

  lemma NextIdCounts(n: nat)
    ensures NextId(n % UINT32) == (n + 1) % UINT32
    ensures NextId(n % UINT32) == 0 && n < UINT32 ==> n + 1 == UINT32
    ensures n + 1 == UINT32 ==> NextId(n % UINT32) == 0
  {
  }

  lemma OneMoreCounts(w: World, s: Step, w': World, pl: Ref, n: nat)
    requires Counted(w, s, w') && CountsAs(w, pl, n) && forall q :: q in w.plugins ==> q < w.next
    requires Mints(w, s, pl) ==> pl in w.plugins
    ensures CountsAs(w', pl, n + if Mints(w, s, pl) then 1 else 0)
  {
    hide Mints, NextId;
    NextIdCounts(n);
    if pl in w.wrapped {
      assert w.calls <= w'.calls;
      AnnouncedEarlier(w.calls, w'.calls, 0, pl, 0);
    } else if pl in w'.wrapped {
      AnnouncedFrom(w'.calls, |w.calls|, pl, 0);
    }
  }

  lemma AnnouncedFrom(calls: seq<Call>, n: nat, pl: Ref, id: nat)
    requires Announced(calls, n, pl, id)
    ensures Announced(calls, 0, pl, id)
  {
  }

  lemma MintingIsOwned(w: World, s: Step, pl: Ref)
    requires Inv(w) && Enabled(w, s) && Mints(w, s, pl)
    ensures pl in w.plugins
  {
    hide Obeyed, Needed, Quiet;
  }

  lemma {:induction false} RunCounts(ss: seq<Step>, pl: Ref)
    requires Legal(ss)
    ensures CountsAs(Run(ss), pl, MintCount(ss, pl))
    decreases |ss|
  {
    hide Inv, Next, Enabled, CountsAs, Mints, Counted;
    if ss == [] {
      NothingCounted(Run(ss), pl);
    } else {
      var init, s := ss[..|ss| - 1], ss[|ss| - 1];
      RunCounts(init, pl);
      StepCounted(Run(init), s);
      NextIsFresh(Run(init));
      if Mints(Run(init), s, pl) {
        MintingIsOwned(Run(init), s, pl);
      }
      OneMoreCounts(Run(init), s, Next(Run(init), s), pl, MintCount(init, pl));
    }
  }

  lemma NothingCounted(w: World, pl: Ref)
    requires w == Empty
    ensures CountsAs(w, pl, 0)
  {
  }

  /** An id that was minted is never minted for another record while its plugin has minted fewer
      than 2^32, even when its record has gone with a destroyed pool. */
  lemma {:induction false} IdsAreMintedForGood(ss: seq<Step>, n: nat, k: (Ref, nat))
    requires Legal(ss) && n <= |ss|
    ensures Legal(ss[..n])
    ensures MintCount(ss, k.0) < UINT32 && k in Run(ss[..n]).minted ==>
              k in Run(ss).minted && Run(ss).minted[k] == Run(ss[..n]).minted[k]
    decreases |ss|
  {
    hide Inv, Next, Enabled, Mints, Counted, CountsAs;
    if n == |ss| {
      assert ss[..n] == ss;
    } else {
      var init := ss[..|ss| - 1];
      IdsAreMintedForGood(init, n, k);
      assert init[..n] == ss[..n];
      if MintCount(ss, k.0) < UINT32 && k in Run(init).minted {
        StepCounted(Run(init), ss[|ss| - 1]);
        RunCounts(init, k.0);
        MintedStays(Run(init), ss[|ss| - 1], k, MintCount(init, k.0));
      }
    }
  }

  lemma MintedStays(w: World, s: Step, k: (Ref, nat), n: nat)
    requires Inv(w) && Enabled(w, s) && Counted(w, s, Next(w, s)) && CountsAs(w, k.0, n) && k in w.minted
    requires n + (if Mints(w, s, k.0) then 1 else 0) < UINT32
    ensures k in Next(w, s).minted && Next(w, s).minted[k] == w.minted[k]
  {
    hide Obeyed, Needed, Quiet, Next, Mints, PluginQueues, ChildQueues, Pools, Requests, Handles, Addresses, Counters;
  }
}
