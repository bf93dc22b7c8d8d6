/**
 Whether cur_state still points to a record that is allocated. Which steps free which plugin is
 decided by their pre-states, for the cleanup of a request, which frees contexts and plugins on its
 way, after each turn of its loop.
 */
module Dangling {
  import opened Common
  import opened Queues
  import opened Abi
  import opened Lifecycle
  import opened Invariant
  import opened Preservation
  import opened PreservationHttp
  import opened Entries
  import opened EntriesHttp
  import opened Runs
  import opened Minting
  import opened StateCoherence

  // ------------------------------------------------------------------------------------
  // The turns of a cleanup

  /** Contexts and plugins only go, and children only leave. */
  ghost predicate Shrinks(w: World, w': World) {
    && w'.pluginHandles == w.pluginHandles && w'.ctxHandles == w.ctxHandles && w'.touched == w.touched
    && w'.curState == w.curState
    && (forall p | p in w'.pctxs :: p in w.pctxs && SmallerCtx(w.pctxs[p], w'.pctxs[p]))
    && (forall h | h in w'.hctxs :: h in w.hctxs && w'.hctxs[h] == w.hctxs[h])
    && (forall q | q in w'.plugins :: q in w.plugins && SmallerPlugin(w.plugins[q], w'.plugins[q]))
  }

  ghost predicate SmallerCtx(a: PluginCtx, b: PluginCtx) {
    b.plugin == a.plugin && b.done == a.done && forall h :: h in b.occupied ==> h in a.occupied
  }

  ghost predicate SmallerPlugin(a: Plugin, b: Plugin) {
    b.done == a.done && forall p :: p in b.occupied ==> p in a.occupied
  }

  lemma ShrinksTrans(w1: World, w2: World, w3: World)
    requires Shrinks(w1, w2) && Shrinks(w2, w3)
    ensures Shrinks(w1, w3)
  {
  }

  lemma RetireHttpShrinks(w: World, r: ReqId)
    requires HasFirst(w, r)
    ensures Shrinks(w, RetireHttp(w, r)) && OwnedCtx(RetireHttp(w, r), w.hctxs[w.requests[r][0]].parent)
  {
  }

  lemma DestroyPoolShrinks(w: World, p: Ref)
    requires OwnedCtx(w, p)
    ensures Shrinks(w, DestroyPool(w, p)) && DestroyPool(w, p).plugins == w.plugins && p in DestroyPool(w, p).pctxs
  {
  }

  lemma RetireCtxShrinks(w: World, p: Ref)
    requires OwnedCtx(w, p)
    ensures Shrinks(w, RetireCtx(w, p)) && w.pctxs[p].plugin in RetireCtx(w, p).plugins
  {
    hide DestroyPool;
    DestroyPoolShrinks(w, p);
  }

  lemma FreePluginShrinks(w: World, pl: Ref)
    requires pl in w.plugins
    ensures Shrinks(w, FreePlugin(w, pl))
  {
  }

  lemma FreeCtxShrinks(w: World, p: Ref)
    requires OwnedCtx(w, p)
    ensures Shrinks(w, FreeCtx(w, p))
  {
    hide RetireCtx, FreePlugin, Shrinks;
    RetireCtxShrinks(w, p);
    ShrinksRefl(w);
    if w.pctxs[p].occupied == [] && w.plugins[w.pctxs[p].plugin].done {
      FreePluginShrinks(RetireCtx(w, p), w.pctxs[p].plugin);
      ShrinksTrans(w, RetireCtx(w, p), FreeCtx(w, p));
    }
  }

  lemma ShrinksRefl(w: World)
    ensures Shrinks(w, w)
  {
  }

  lemma CleanupOneShrinks(w: World, r: ReqId)
    requires HasFirst(w, r)
    ensures Shrinks(w, CleanupOne(w, r))
  {
    hide RetireHttp, FreeCtx, Shrinks;
    var p := w.hctxs[w.requests[r][0]].parent;
    RetireHttpShrinks(w, r);
    if w.pctxs[p].done {
      FreeCtxShrinks(RetireHttp(w, r), p);
      ShrinksTrans(w, RetireHttp(w, r), CleanupOne(w, r));
    }
  }

  lemma TurnKeeps(w: World, w1: World, r: ReqId, k: nat)
    requires r in w.requests && 0 < k <= |w.requests[r]|
    requires Inv(w1) && r in w1.touched && w1.requests == w.requests[r := w.requests[r][k - 1..]] && Shrinks(w, w1)
    ensures HasFirst(w1, r)
    ensures var w' := CleanupOne(w1, r);
      Inv(w') && w'.requests == w.requests[r := w.requests[r][k..]] && w'.touched == w1.touched && Shrinks(w, w')
  {
    hide Structure, Obeyed, Needed, Quiet, CleanupOne, Shrinks;
    CleanupOneKeeps(w1, r);
    CleanupOneFrame(w1, r);
    CleanupOneShrinks(w1, r);
    ShrinksTrans(w, w1, CleanupOne(w1, r));
    assert w.requests[r][k - 1..][1..] == w.requests[r][k..];
  }

  /** The worker after k turns of the cleanup of r. */
  ghost function Turns(w: World, r: ReqId, k: nat): (w': World)
    requires Inv(w) && r in w.touched && r in w.requests && k <= |w.requests[r]|
    ensures Inv(w') && w'.requests == w.requests[r := w.requests[r][k..]] && w'.touched == w.touched && Shrinks(w, w')
  {
    hide Inv, CleanupOne, Shrinks;
    if k == 0 then
      ShrinksRefl(w);
      assert w.requests[r][0..] == w.requests[r];
      w
    else
      var w1 := Turns(w, r, k - 1);
      TurnKeeps(w, w1, r, k);
      CleanupOne(w1, r)
  }

  /** The cleanup is all its turns and the end of the request. */
  lemma {:induction false} CleanupFrom(w: World, r: ReqId, k: nat)
    requires Inv(w) && r in w.touched && r in w.requests && k <= |w.requests[r]|
    ensures Cleanup(w, r) == Cleanup(Turns(w, r, k), r)
  {
    hide Inv, CleanupOne, Shrinks;
    if k > 0 {
      CleanupFrom(w, r, k - 1);
    }
  }

  lemma CleanupIsTurns(w: World, r: ReqId)
    requires Inv(w) && r in w.touched && r in w.requests
    ensures Cleanup(w, r) == ForgetRequest(Turns(w, r, |w.requests[r]|), r)
  {
    hide Inv, CleanupOne, Shrinks;
    CleanupFrom(w, r, |w.requests[r]|);
  }

  // ------------------------------------------------------------------------------------
  // Which plugin goes

  /** A plugin goes once the HTTP contexts in a are let go: it is done, so are its contexts in use,
      and all their children in use are in a. */
  ghost predicate GoesWith(w: World, pl: Ref, a: seq<Ref>) {
    && pl in w.plugins && w.plugins[pl].done
    && forall p | p in w.plugins[pl].occupied ::
         p in w.pctxs && w.pctxs[p].done && forall h :: h in w.pctxs[p].occupied ==> h in a
  }

  /** The entries of a have left the arrays, and nothing else has. */
  ghost predicate Dropped(w: World, w': World, a: seq<Ref>) {
    && (forall q, h | q in w.requests && h in w.requests[q] && h !in a :: q in w'.requests && h in w'.requests[q])
    && (forall q, h | q in w'.requests && h in w'.requests[q] :: h !in a)
  }

  lemma GoesIfUnneeded(w: World, w': World, a: seq<Ref>, pl: Ref)
    requires Structure(w) && Structure(w') && Needed(w', {}) && Shrinks(w, w') && Dropped(w, w', a)
    requires GoesWith(w, pl, a)
    ensures pl !in w'.plugins
  {
    hide PluginQueues, ChildQueues, Pools, Requests, Handles, Ids, Counters, Addresses, Structure, Needed;
    if pl in w'.plugins {
      SomeChildRemains(w', pl);
      var p :| p in w'.plugins[pl].occupied && p in w'.pctxs && (!w'.pctxs[p].done || w'.pctxs[p].occupied != []);
      assert p in w.plugins[pl].occupied;
      var h := w'.pctxs[p].occupied[0];
      assert h in w'.pctxs[p].occupied && h in w.pctxs[p].occupied;
      ChildIsHeld(w', p, h);
    }
  }

  /** A plugin that is done is kept for a context in use, which is kept for a handle or a child. */
  lemma SomeChildRemains(w: World, pl: Ref)
    requires Structure(w) && Needed(w, {}) && pl in w.plugins && w.plugins[pl].done
    ensures exists p :: p in w.plugins[pl].occupied && p in w.pctxs && (!w.pctxs[p].done || w.pctxs[p].occupied != [])
  {
    var p := w.plugins[pl].occupied[0];
    assert p in w.plugins[pl].occupied;
  }

  lemma ChildIsHeld(w: World, p: Ref, h: Ref)
    requires Structure(w) && p in w.pctxs && h in w.pctxs[p].occupied
    ensures h in w.busyHttp && h in w.holder && w.holder[h] in w.requests && h in w.requests[w.holder[h]]
    ensures h in w.hctxs && w.hctxs[h].parent == p
  {
    hide PluginQueues, Pools, Handles, Ids, Counters, Addresses;
  }

  lemma GoesOnlyThen(w: World, w': World, a: seq<Ref>, pl: Ref)
    requires Structure(w) && Structure(w') && Shrinks(w, w') && Dropped(w, w', a)
    requires pl in w.plugins && pl !in w'.plugins
    ensures GoesWith(w, pl, a)
  {
    hide ChildQueues, Pools, Requests, Ids, Counters, Addresses, PluginQueues;
    forall p | p in w.plugins[pl].occupied
      ensures p in w.pctxs && w.pctxs[p].done && forall h :: h in w.pctxs[p].occupied ==> h in a
    {
      OccupiedIsInUse(w, pl, p);
      if !w.pctxs[p].done {
        HandledStays(w', p);
      }
      forall h | h in w.pctxs[p].occupied
        ensures h in a
      {
        ChildIsHeld(w, p, h);
        if h !in a {
          HeldStays(w', w.holder[h], h);
        }
      }
    }
  }

  lemma OccupiedIsInUse(w: World, pl: Ref, p: Ref)
    requires Structure(w) && pl in w.plugins && p in w.plugins[pl].occupied
    ensures p in w.pctxs && p in w.busy && w.pctxs[p].plugin == pl && (w.pctxs[p].done <==> p !in w.ctxHandles)
  {
    hide ChildQueues, Pools, Requests, Ids, Counters, Addresses;
  }

  lemma HandledStays(w: World, p: Ref)
    requires Structure(w) && p in w.ctxHandles
    ensures p in w.pctxs && w.pctxs[p].plugin in w.plugins
  {
    hide ChildQueues, Pools, Requests, Ids, Counters, Addresses;
  }

  lemma HeldStays(w: World, q: ReqId, h: Ref)
    requires Structure(w) && q in w.requests && h in w.requests[q]
    ensures h in w.hctxs && w.hctxs[h].parent in w.pctxs && w.pctxs[w.hctxs[h].parent].plugin in w.plugins
  {
    hide Pools, Handles, Ids, Counters, Addresses;
  }

  lemma TurnsDrop(w: World, r: ReqId, k: nat)
    requires Inv(w) && r in w.touched && r in w.requests && k <= |w.requests[r]|
    ensures Dropped(w, Turns(w, r, k), w.requests[r][..k])
  {
    hide Turns, Obeyed, Needed, Quiet, PluginQueues, ChildQueues, Pools, Handles, Ids, Counters, Addresses;
    ArraysApart(w);
    var a := w.requests[r];
    var w' := Turns(w, r, k);
    assert a == a[..k] + a[k..];
    PartsApart(a, k);
  }

  lemma PartsApart(a: seq<Ref>, k: nat)
    requires NoDup(a) && k <= |a|
    ensures forall h :: h in a[k..] ==> h !in a[..k]
  {
    forall i | 0 <= i < |a[k..]|
      ensures a[k..][i] !in a[..k]
    {
      assert a[k..][i] == a[k + i];
    }
  }

  lemma ArraysApart(w: World)
    requires Structure(w)
    ensures forall q, s, h | q in w.requests && s in w.requests && h in w.requests[q] && h in w.requests[s] :: q == s
    ensures forall q | q in w.requests :: NoDup(w.requests[q])
  {
    hide PluginQueues, ChildQueues, Pools, Handles, Ids, Counters, Addresses;
    forall q, s, h | q in w.requests && s in w.requests && h in w.requests[q] && h in w.requests[s]
      ensures q == s
    {
      assert w.holder[h] == q && w.holder[h] == s;
    }
    forall q, i, j | q in w.requests && 0 <= i < j < |w.requests[q]|
      ensures w.requests[q][i] != w.requests[q][j]
    {
      assert w.requests[q][i] in w.requests[q] && w.requests[q][j] in w.requests[q];
    }
  }

  /** After k turns a plugin is gone exactly when it goes with the first k entries. */
  lemma GoneAfterTurns(w: World, r: ReqId, k: nat, pl: Ref)
    requires Inv(w) && r in w.touched && r in w.requests && k <= |w.requests[r]| && pl in w.plugins
    ensures pl !in Turns(w, r, k).plugins <==> GoesWith(w, pl, w.requests[r][..k])
  {
    hide Turns, Structure, Obeyed, Needed, Quiet, Shrinks, Dropped, GoesWith;
    var w' := Turns(w, r, k);
    TurnsDrop(w, r, k);
    if pl !in w'.plugins {
      GoesOnlyThen(w, w', w.requests[r][..k], pl);
    } else if GoesWith(w, pl, w.requests[r][..k]) {
      GoesIfUnneeded(w, w', w.requests[r][..k], pl);
    }
  }

  /** The array of a request, if it has one. */
  function Array(w: World, r: ReqId): seq<Ref> {
    if r in w.requests then w.requests[r] else []
  }

  /** The step frees pl. */
  ghost predicate Frees(w: World, s: Step, pl: Ref) {
    match s
    case FinalizePlugin(q) => q == pl && pl in w.plugins && w.plugins[pl].occupied == []
    case FinalizeCtx(p) =>
      && OwnedCtx(w, p) && w.pctxs[p].plugin == pl && w.pctxs[p].occupied == []
      && w.plugins[pl].done && w.plugins[pl].occupied == [p]
    case EndRequest(r) => GoesWith(w, pl, Array(w, r))
    case _ => false
  }

  lemma CleanupFrees(w: World, r: ReqId, pl: Ref)
    requires Inv(w) && r in w.touched && pl in w.plugins
    ensures pl !in Cleanup(w, r).plugins <==> GoesWith(w, pl, Array(w, r))
  {
    hide Inv, Turns, GoesWith, Shrinks;
    if r in w.requests {
      CleanupIsTurns(w, r);
      GoneAfterTurns(w, r, |w.requests[r]|, pl);
      assert w.requests[r][..|w.requests[r]|] == w.requests[r];
    } else {
      NothingGoes(w, pl);
    }
  }

  lemma NothingGoes(w: World, pl: Ref)
    requires Inv(w) && pl in w.plugins
    ensures !GoesWith(w, pl, [])
  {
    hide Obeyed, Quiet, ChildQueues, Pools, Requests, Ids, Counters, Addresses;
    if w.plugins[pl].done {
      SomeChildRemains(w, pl);
      var p :| p in w.plugins[pl].occupied && p in w.pctxs && (!w.pctxs[p].done || w.pctxs[p].occupied != []);
      if w.pctxs[p].done {
        assert w.pctxs[p].occupied[0] in w.pctxs[p].occupied;
      }
    }
  }

  lemma RemoveLast(q: seq<Ref>, p: Ref)
    requires p in q && NoDup(q)
    ensures Remove(q, p) == [] <==> q == [p]
  {
    assert Remove(q, p) == [] ==> |q| == 1 && q == [q[0]];
  }

  lemma FinalizeCtxFrees(w: World, p: Ref, pl: Ref)
    requires Inv(w) && p in w.ctxHandles && pl in w.plugins
    ensures OwnedCtx(w, p) && (pl !in DeleteCtx(w, p).plugins <==> Frees(w, FinalizeCtx(p), pl))
  {
    hide Obeyed, Needed, Quiet, ChildQueues, Requests, Ids, Counters, Addresses, Pools;
    HandleServes(w, p);
    OccupiedIn(w, p);
    var q := w.pctxs[p].plugin;
    RemoveLast(w.plugins[q].occupied, p);
    FreeCtxEffect(MarkCtx(w, p), p);
  }

  lemma OccupiedIn(w: World, p: Ref)
    requires Structure(w) && p in w.ctxHandles
    ensures OwnedCtx(w, p) && p in w.plugins[w.pctxs[p].plugin].occupied && NoDup(w.plugins[w.pctxs[p].plugin].occupied)
  {
    hide ChildQueues, Pools, Requests, Ids, Counters, Addresses;
  }

  lemma FreeCtxEffect(w: World, p: Ref)
    requires OwnedCtx(w, p)
    ensures var pl := w.pctxs[p].plugin;
      FreeCtx(w, p).plugins.Keys
      == if w.pctxs[p].occupied == [] && w.plugins[pl].done && Remove(w.plugins[pl].occupied, p) == []
         then w.plugins.Keys - {pl} else w.plugins.Keys
  {
    hide DestroyPool;
    DestroyPoolShrinks(w, p);
  }

  lemma UnloadFrees(w: World, q: Ref, pl: Ref)
    requires q in w.plugins && pl in w.plugins
    ensures pl !in Unload(w, q).plugins <==> q == pl && w.plugins[pl].occupied == []
  {
  }

  lemma ConfigureFreesNone(w: World, q: Ref, o: ConfigureAnswers, pl: Ref)
    requires Inv(w) && q in w.pluginHandles && pl in w.plugins
    ensures pl in Configuration(w, q, o).plugins
  {
    hide Inv, Created, TakeCtx;
    HandleConfigures(w, q);
    HandleIsNotDone(w, q);
    if w.plugins[q].free != [] || o.recordOk {
      TakeCtxSees(w, q);
      TakeCtxPlugins(w, q);
      CreatedPlugins(TakeCtx(w, q), q, o);
    }
  }

  lemma TakeCtxPlugins(w: World, pl: Ref)
    requires pl in w.plugins && forall p :: p in w.plugins[pl].free ==> p in w.pctxs && w.pctxs[p].plugin == pl
    ensures TakeCtx(w, pl).plugins.Keys == w.plugins.Keys
  {
  }

  lemma DeleteCtxPlugins(w: World, p: Ref)
    requires OwnedCtx(w, p) && !w.plugins[w.pctxs[p].plugin].done
    ensures DeleteCtx(w, p).plugins.Keys == w.plugins.Keys
  {
    hide FreeCtx;
    FreeCtxEffect(MarkCtx(w, p), p);
  }

  lemma CreatedPlugins(w: World, pl: Ref, o: ConfigureAnswers)
    requires Spare(w, pl) && !w.plugins[pl].done
    ensures Created(w, pl, o).plugins.Keys == w.plugins.Keys
  {
    hide DeleteCtx, ActivateCtx, Configuring, AnnounceCtx;
    AnnounceSpare(w, pl, o.createRc == NGX_OK);
    if o.createRc == NGX_OK {
      var w1 := AnnounceCtx(w, pl, true);
      var w2 := ActivateCtx(w1, pl, o.poolOk);
      var p := Last(w.plugins[pl].free);
      AnnounceState(w, pl, true);
      ActivateCtxScope(w1, pl, o.poolOk);
      ActivatePlugins(w1, pl, o.poolOk);
      DeleteCtxPlugins(w2, p);
      if o.poolOk {
        ConfiguringSees(w2, p, o);
        DeleteCtxPlugins(Configuring(w2, p, o.garbage), p);
      }
    }
  }

  lemma AnnounceState(w: World, pl: Ref, ok: bool)
    requires Spare(w, pl)
    ensures AnnounceCtx(w, pl, ok).curState == Some(OfPlugin(pl))
  {
  }

  lemma ActivatePlugins(w: World, pl: Ref, poolOk: bool)
    requires Spare(w, pl)
    ensures ActivateCtx(w, pl, poolOk).plugins.Keys == w.plugins.Keys
  {
  }

  lemma ServedPlugins(w: World, p: Ref, r: ReqId, body: Option<Bytes>, o: FetchAnswers)
    requires CanServe(w, p)
    ensures Fetch(Arrive(w, p, body), p, r, o).plugins.Keys == w.plugins.Keys
  {
    hide Arrive, CreateHttp;
    ArrivePlugins(w, p, body);
    var w1 := Arrive(w, p, body);
    var w2 := w1.(touched := w1.touched + {r});
    if (r in w.touched || o.moduleCtxOk) && (r in w.requests || o.arrayOk) && Entry(w2, r, p).None? {
      CreateHttpPlugins(AddArray(w2, r), p, r, o);
    }
  }

  lemma ArrivePlugins(w: World, p: Ref, body: Option<Bytes>)
    requires CanServe(w, p)
    ensures var w' := Arrive(w, p, body);
      w'.plugins == w.plugins && w'.touched == w.touched && w'.requests == w.requests && w'.hctxs == w.hctxs
  {
  }

  lemma CreateHttpPlugins(w: World, p: Ref, r: ReqId, o: FetchAnswers)
    requires CanServe(w, p) && r in w.requests
    ensures CreateHttp(w, p, r, o).plugins.Keys == w.plugins.Keys
  {
    hide TakeHttp;
    TakenIsThere(w, p);
    TakeHttpPlugins(w, p);
  }

  lemma TakeHttpPlugins(w: World, p: Ref)
    requires CanServe(w, p)
    ensures TakeHttp(w, p).plugins.Keys == w.plugins.Keys
  {
  }

  lemma ClearPlugins(w: World, pl: Ref, what: What)
    ensures ClearState(w).plugins == w.plugins && ClearState(Emit(w, pl, what)).plugins == w.plugins
  {
  }

  lemma ServeFreesNone(w: World, p: Ref, r: ReqId, body: Option<Bytes>, o: FetchAnswers, pl: Ref)
    requires Inv(w) && p in w.ctxHandles && pl in w.plugins
    ensures pl in Service(w, p, r, body, o).plugins && pl in CallResponse(w, p, r, o).plugins
  {
    hide Inv, Fetch, Arrive, ClearState;
    HandleServes(w, p);
    ServedPlugins(w, p, r, body, o);
    ServedPlugins(w, p, r, None, o);
    var w1, w2 := Fetch(Arrive(w, p, body), p, r, o), Fetch(Arrive(w, p, None), p, r, o);
    assert pl in w1.plugins.Keys && pl in w2.plugins.Keys;
    var e := Entry(w1, r, p);
    ClearPlugins(w1, w.pctxs[p].plugin, OnStream(if e.Some? then w1.hctxs[e.value].id else 0, body));
    ClearPlugins(w2, w.pctxs[p].plugin, OnHttpCallResponse(w.pctxs[p].id));
  }

  /** Which plugin a step frees is decided by its pre-state. */
  lemma PluginFreedExactlyWhen(w: World, s: Step, pl: Ref)
    requires Inv(w) && Enabled(w, s) && pl in w.plugins
    ensures pl !in Next(w, s).plugins <==> Frees(w, s, pl)
  {
    hide Inv, Configuration, Service, CallResponse, Cleanup, DeleteCtx, Unload, Load, GoesWith;
    match s
    case LoadPlugin(o) => LoadFreesNone(w, o, pl);
    case ConfigurePlugin(q, o) => ConfigureFreesNone(w, q, o, pl);
    case Serve(p, r, body, o) => ServeFreesNone(w, p, r, body, o, pl);
    case ServeCallResponse(p, r, o) => ServeFreesNone(w, p, r, None, o, pl);
    case EndRequest(r) => CleanupFrees(w, r, pl);
    case FinalizeCtx(p) => FinalizeCtxFrees(w, p, pl);
    case FinalizePlugin(q) =>
      HandleConfigures(w, q);
      UnloadFrees(w, q, pl);
  }

  lemma LoadFreesNone(w: World, o: LoadAnswers, pl: Ref)
    requires pl in w.plugins
    ensures pl in Load(w, o).plugins
  {
  }

  // ------------------------------------------------------------------------------------
  // Whether the state is live

  /** A step that puts a live state, or none, in the place of the current one. */
  ghost predicate Renews(w: World, s: Step) {
    s.Serve? || s.ServeCallResponse?
    || (s.ConfigurePlugin? && s.pl in w.plugins && (w.plugins[s.pl].free != [] || s.configure.recordOk))
  }

  /** The step does not free the plugin whose state is current. */
  ghost predicate Spares(w: World, s: Step) {
    w.curState.Some? && w.curState.value.OfPlugin? ==> !Frees(w, s, w.curState.value.plugin)
  }

  /** The current state is that of a plugin that has been loaded at some time. */
  ghost predicate StateKnown(w: World) {
    w.curState.Some? ==> w.curState.value.OfPlugin? && w.curState.value.plugin < w.next
  }

  /** New plugins get addresses that were not used before. */
  lemma NewPlugins(w: World, s: Step, pl: Ref)
    requires Inv(w) && Enabled(w, s) && pl !in w.plugins && pl < w.next
    ensures pl !in Next(w, s).plugins
  {
    hide Inv, Configuration, Service, CallResponse, Cleanup, DeleteCtx, Unload, Load;
    match s
    case LoadPlugin(o) => LoadAdds(w, o, pl);
    case ConfigurePlugin(q, o) => ConfigureAddsNone(w, q, o, pl);
    case Serve(p, r, body, o) => ServeAddsNone(w, p, r, body, o, pl);
    case ServeCallResponse(p, r, o) => ServeAddsNone(w, p, r, None, o, pl);
    case EndRequest(r) => CleanupAddsNone(w, r, pl);
    case FinalizeCtx(p) =>
      HandleServes(w, p);
      DeleteCtxAddsNone(w, p, pl);
    case FinalizePlugin(q) =>
      HandleConfigures(w, q);
      UnloadAddsNone(w, q, pl);
  }

  lemma LoadAdds(w: World, o: LoadAnswers, pl: Ref)
    requires pl !in w.plugins && pl < w.next
    ensures pl !in Load(w, o).plugins
  {
  }

  lemma ConfigureAddsNone(w: World, q: Ref, o: ConfigureAnswers, pl: Ref)
    requires Inv(w) && q in w.pluginHandles && pl !in w.plugins
    ensures pl !in Configuration(w, q, o).plugins
  {
    hide Inv, Created, TakeCtx;
    HandleConfigures(w, q);
    HandleIsNotDone(w, q);
    if w.plugins[q].free != [] || o.recordOk {
      TakeCtxSees(w, q);
      TakeCtxPlugins(w, q);
      CreatedPlugins(TakeCtx(w, q), q, o);
      assert pl !in TakeCtx(w, q).plugins.Keys;
    }
  }

  lemma ServeAddsNone(w: World, p: Ref, r: ReqId, body: Option<Bytes>, o: FetchAnswers, pl: Ref)
    requires Inv(w) && p in w.ctxHandles && pl !in w.plugins
    ensures pl !in Service(w, p, r, body, o).plugins && pl !in CallResponse(w, p, r, o).plugins
  {
    hide Inv, Fetch, Arrive, ClearState;
    HandleServes(w, p);
    ServedPlugins(w, p, r, body, o);
    ServedPlugins(w, p, r, None, o);
    var w1, w2 := Fetch(Arrive(w, p, body), p, r, o), Fetch(Arrive(w, p, None), p, r, o);
    assert pl !in w1.plugins.Keys && pl !in w2.plugins.Keys;
    var e := Entry(w1, r, p);
    ClearPlugins(w1, w.pctxs[p].plugin, OnStream(if e.Some? then w1.hctxs[e.value].id else 0, body));
    ClearPlugins(w2, w.pctxs[p].plugin, OnHttpCallResponse(w.pctxs[p].id));
  }

  lemma CleanupAddsNone(w: World, r: ReqId, pl: Ref)
    requires Inv(w) && r in w.touched && pl !in w.plugins
    ensures pl !in Cleanup(w, r).plugins
  {
    hide Inv, Turns;
    if r in w.requests {
      CleanupIsTurns(w, r);
    }
  }

  lemma DeleteCtxAddsNone(w: World, p: Ref, pl: Ref)
    requires OwnedCtx(w, p) && pl !in w.plugins
    ensures pl !in DeleteCtx(w, p).plugins
  {
    hide FreeCtx;
    FreeCtxEffect(MarkCtx(w, p), p);
    assert pl !in MarkCtx(w, p).plugins.Keys;
    assert pl !in FreeCtx(MarkCtx(w, p), p).plugins.Keys;
  }

  lemma UnloadAddsNone(w: World, q: Ref, pl: Ref)
    requires q in w.plugins && pl !in w.plugins
    ensures pl !in Unload(w, q).plugins
  {
  }

  /** Exactly when the state that is current after a step is allocated. */
  lemma StateLiveExactlyWhen(w: World, s: Step)
    requires Inv(w) && Enabled(w, s) && StateKnown(w)
    ensures StateLive(Next(w, s)) <==> Renews(w, s) || (StateLive(w) && Spares(w, s))
  {
    hide Inv, Next, GoesWith;
    StateAfter(w, s);
    if s.ConfigurePlugin? {
      HandleConfigures(w, s.pl);
      PluginFreedExactlyWhen(w, s, s.pl);
    }
    if w.curState.Some? {
      var pl := w.curState.value.plugin;
      if pl in w.plugins {
        PluginFreedExactlyWhen(w, s, pl);
      } else {
        NewPlugins(w, s, pl);
      }
    }
  }

  lemma KnownStays(w: World, s: Step)
    requires Inv(w) && Enabled(w, s) && StateKnown(w) && w.next <= Next(w, s).next
    ensures StateKnown(Next(w, s))
  {
    hide Inv, Next;
    StateAfter(w, s);
    if s.ConfigurePlugin? {
      HandleConfigures(w, s.pl);
      NextIsFresh(w);
    }
  }

  lemma NextStays(w: World, s: Step)
    requires Inv(w) && Enabled(w, s) && Counted(w, s, Next(w, s))
    ensures w.next <= Next(w, s).next
  {
    hide Inv, Next;
  }

  lemma {:induction false} StateIsKnown(ss: seq<Step>)
    requires Legal(ss)
    ensures StateKnown(Run(ss))
    decreases |ss|
  {
    hide Inv, Next, Enabled, StateKnown, Counted;
    if ss == [] {
      NoStateKnown(Run(ss));
    } else {
      var init, s := ss[..|ss| - 1], ss[|ss| - 1];
      StateIsKnown(init);
      StepCounted(Run(init), s);
      NextStays(Run(init), s);
      KnownStays(Run(init), s);
    }
  }

  lemma NoStateKnown(w: World)
    requires w.curState.None?
    ensures StateKnown(w)
  {
  }

  /** Going through a run: the current state is renewed, or it was live and its plugin is spared. */
  ghost predicate StaysLive(ss: seq<Step>)
    requires Legal(ss)
    decreases |ss|
  {
    ss == []
    || var w, s := Run(ss[..|ss| - 1]), ss[|ss| - 1];
       Renews(w, s) || (StaysLive(ss[..|ss| - 1]) && Spares(w, s))
  }

  /** In every run cur_state points to an allocated record, or to none, exactly when no step since
      it was last renewed has freed its plugin. */
  lemma {:induction false} StateIsLiveExactlyWhen(ss: seq<Step>)
    requires Legal(ss)
    ensures StateLive(Run(ss)) <==> StaysLive(ss)
    decreases |ss|
  {
    hide Inv, Next, Enabled, Renews, Spares, StateKnown;
    if ss != [] {
      var init := ss[..|ss| - 1];
      StateIsLiveExactlyWhen(init);
      StateIsKnown(init);
      StateLiveExactlyWhen(Run(init), ss[|ss| - 1]);
    }
  }

  // ------------------------------------------------------------------------------------
  // Whether calls find a live state

  /** All calls that a step adds and that run code of a guest find no state or one that is
      allocated. `exports` says what each guest has code for. */
  ghost predicate AddsLive(w: World, w': World, exports: Ref -> Exports) {
    forall i :: |w.calls| <= i < |w'.calls| && Enters(w'.calls[i], exports) ==> w'.calls[i].stateLive
  }

  predicate HearsFarewell(e: Exports) {
    e.onDone || e.onDelete
  }

  /** The guest that a child belongs to. */
  function GuestOf(w: World, h: Ref): Ref {
    if h in w.hctxs && w.hctxs[h].parent in w.pctxs then w.pctxs[w.hctxs[h].parent].plugin else 0
  }

  /** A step whose calls all find a live state, or that runs no code of a guest. Phases and
      configurations renew the state first, unloading a VM runs nothing. The cleanup of a request
      frees plugins on its way: each turn that a guest hears of finds what the turns before it have
      left. */
  ghost predicate FindsLive(w: World, s: Step, exports: Ref -> Exports) {
    match s
    case LoadPlugin(o) => o.vmOk && o.hasStart ==> StateLive(w)
    case FinalizeCtx(p) =>
      p in w.pctxs && w.pctxs[p].occupied == [] && HearsFarewell(exports(w.pctxs[p].plugin)) ==> StateLive(w)
    case EndRequest(r) => HeardTurnsAreLive(w, Array(w, r), exports)
    case _ => true
  }

  /** Before each turn that a guest hears of, the state is live. */
  ghost predicate HeardTurnsAreLive(w: World, a: seq<Ref>, exports: Ref -> Exports) {
    forall k: nat :: k < |a| && HearsFarewell(exports(GuestOf(w, a[k]))) ==> LiveUntil(w, a, k)
  }

  /** The state is live, and its plugin does not go with the first k entries of a. */
  ghost predicate LiveUntil(w: World, a: seq<Ref>, k: nat)
    requires k <= |a|
  {
    StateLive(w) && (w.curState.Some? && w.curState.value.OfPlugin? ==> !GoesWith(w, w.curState.value.plugin, a[..k]))
  }

  /** The next turn is that of the k-th entry, and lets a context of its guest go. */
  lemma TurnGuest(w: World, r: ReqId, k: nat)
    requires Inv(w) && r in w.touched && r in w.requests && k < |w.requests[r]|
    ensures var w1 := Turns(w, r, k); var h := w.requests[r][k];
      && HasFirst(w1, r) && w1.requests[r][0] == h && Turns(w, r, k + 1) == CleanupOne(w1, r)
      && w1.pctxs[w1.hctxs[h].parent].plugin == GuestOf(w, h) && NoCtxState(w1) && w1.curState == w.curState
  {
    hide Structure, Obeyed, Needed, CleanupOne;
    TurnKeeps(w, Turns(w, r, k), r, k + 1);
  }

  /** The calls of one turn, if its guest hears them, find the state as it is before the turn. */
  lemma TurnFindsLive(w: World, w1: World, pl: Ref, done: bool, owner: Option<StateOwner>, live: bool,
                      exports: Ref -> Exports)
    requires Adds(w, w1, Dismissals(pl, done, owner, live)) && Farewell(w1.calls, |w.calls|, pl)
    ensures AddsLive(w, w1, exports) <==> (HearsFarewell(exports(pl)) ==> live)
  {
    if HearsFarewell(exports(pl)) && !live {
      var n := |w.calls|;
      assert Dismissals(pl, done, owner, live)(w1.calls[n]) && Dismissals(pl, done, owner, live)(w1.calls[n + 1]);
      assert Enters(w1.calls[n], exports) || Enters(w1.calls[n + 1], exports);
    }
  }

  lemma AddsLiveTrans(w: World, w1: World, w2: World, exports: Ref -> Exports)
    requires w.calls <= w1.calls <= w2.calls
    ensures AddsLive(w, w2, exports) <==> AddsLive(w, w1, exports) && AddsLive(w1, w2, exports)
  {
    assert forall i :: 0 <= i < |w1.calls| ==> w2.calls[i] == w1.calls[i];
  }

  /** The calls of the first k turns that guests hear find live states exactly when the state was
      live before each such turn. */
  lemma {:induction false} TurnsFindLive(w: World, r: ReqId, k: nat, exports: Ref -> Exports)
    requires Inv(w) && r in w.touched && r in w.requests && k <= |w.requests[r]|
    ensures w.calls <= Turns(w, r, k).calls
    ensures AddsLive(w, Turns(w, r, k), exports)
       <==> forall j: nat :: j < k && HearsFarewell(exports(GuestOf(w, w.requests[r][j]))) ==> StateLive(Turns(w, r, j))
  {
    hide Inv, Turns, Shrinks, CleanupOne, StateLive, Adds, Farewell, AddsLive, GuestOf, NoCtxState, HearsFarewell;
    if k == 0 {
      NoTurns(w, r);
      NoCallsAreLive(w, w, exports);
    } else {
      TurnsFindLive(w, r, k - 1, exports);
      var w1, w2 := Turns(w, r, k - 1), Turns(w, r, k);
      TurnGuest(w, r, k - 1);
      CleanupOneSees(w1, r);
      var pl := GuestOf(w, w.requests[r][k - 1]);
      AddsPrefix(w1, w2, Dismissals(pl, w1.plugins[pl].done, w1.curState, StateLive(w1)));
      TurnFindsLive(w1, w2, pl, w1.plugins[pl].done, w1.curState, StateLive(w1), exports);
      AddsLiveTrans(w, w1, w2, exports);
    }
  }

  lemma NoTurns(w: World, r: ReqId)
    requires Inv(w) && r in w.touched && r in w.requests
    ensures Turns(w, r, 0) == w
  {
    hide Inv;
  }

  /** The state after k turns is live exactly when it was live before and its plugin does not go
      with the first k entries. */
  lemma LiveAfterTurns(w: World, r: ReqId, k: nat)
    requires Inv(w) && r in w.touched && r in w.requests && k <= |w.requests[r]|
    ensures StateLive(Turns(w, r, k)) <==> LiveUntil(w, w.requests[r], k)
  {
    hide Inv, Turns, GoesWith;
    QuietState(w);
    if w.curState.Some? && w.curState.value.plugin in w.plugins {
      GoneAfterTurns(w, r, k, w.curState.value.plugin);
    }
  }

  lemma CleanupFindsLive(w: World, r: ReqId, exports: Ref -> Exports)
    requires Inv(w) && r in w.touched
    ensures AddsLive(w, Cleanup(w, r), exports) <==> FindsLive(w, EndRequest(r), exports)
  {
    hide Inv, Turns, LiveUntil, StateLive, Shrinks, AddsLive, GuestOf, HearsFarewell;
    if r !in w.requests {
      NoCallsAreLive(w, Cleanup(w, r), exports);
    } else {
      CleanupIsTurns(w, r);
      SameCallsSameLive(w, Turns(w, r, |w.requests[r]|), Cleanup(w, r), exports);
      AllTurnsFindLive(w, r, exports);
    }
  }

  lemma AllTurnsFindLive(w: World, r: ReqId, exports: Ref -> Exports)
    requires Inv(w) && r in w.touched && r in w.requests
    ensures AddsLive(w, Turns(w, r, |w.requests[r]|), exports)
       <==> HeardTurnsAreLive(w, w.requests[r], exports)
  {
    hide Inv, Turns, LiveUntil, StateLive, Shrinks, AddsLive, GuestOf, HearsFarewell;
    TurnsFindLive(w, r, |w.requests[r]|, exports);
    forall k: nat | k < |w.requests[r]|
      ensures StateLive(Turns(w, r, k)) <==> LiveUntil(w, w.requests[r], k)
    {
      LiveAfterTurns(w, r, k);
    }
  }

  lemma NoCallsAreLive(w: World, w': World, exports: Ref -> Exports)
    requires w'.calls == w.calls
    ensures AddsLive(w, w', exports)
  {
  }

  lemma SameCallsSameLive(w: World, w1: World, w2: World, exports: Ref -> Exports)
    requires w1.calls == w2.calls
    ensures AddsLive(w, w1, exports) <==> AddsLive(w, w2, exports)
  {
  }

  lemma AllAreLive(w: World, w': World, good: Call -> bool, exports: Ref -> Exports)
    requires Adds(w, w', good) && forall c :: good(c) && Enters(c, exports) ==> c.stateLive
    ensures AddsLive(w, w', exports)
  {
  }

  lemma LoadFindsLive(w: World, o: LoadAnswers, exports: Ref -> Exports)
    requires NoCtxState(w)
    ensures AddsLive(w, Load(w, o), exports) <==> (o.vmOk && o.hasStart ==> StateLive(w))
  {
    hide Load, StateLive;
    LoadSees(w, o);
    var w' := Load(w, o);
    if o.vmOk {
      assert Seeings(w, LoadPlugin(o))(w'.calls[|w.calls|]);
    }
  }

  lemma FinalizeFindsLive(w: World, p: Ref, exports: Ref -> Exports)
    requires NoCtxState(w) && OwnedCtx(w, p)
    ensures AddsLive(w, DeleteCtx(w, p), exports)
       <==> (w.pctxs[p].occupied == [] && HearsFarewell(exports(w.pctxs[p].plugin)) ==> StateLive(w))
  {
    hide DeleteCtx, StateLive, AddsLive, Adds, Farewell, HearsFarewell;
    DeleteCtxSees(w, p);
    var pl := w.pctxs[p].plugin;
    if w.pctxs[p].occupied == [] {
      TurnFindsLive(w, DeleteCtx(w, p), pl, w.plugins[pl].done, w.curState, StateLive(w), exports);
    } else {
      NoCallsAreLive(w, DeleteCtx(w, p), exports);
    }
  }

  /** The calls of a step that run code of a guest find a live state, or none, exactly when FindsLive. */
  lemma CallsFindLiveExactlyWhen(w: World, s: Step, exports: Ref -> Exports)
    requires Inv(w) && Enabled(w, s)
    ensures AddsLive(w, Next(w, s), exports) <==> FindsLive(w, s, exports)
  {
    hide Inv, Configuration, Service, CallResponse, Cleanup, DeleteCtx, Unload, Load, LiveUntil, Adds, AddsLive,
         StateLive, NoCtxState, HearsFarewell;
    QuietState(w);
    var w' := Next(w, s);
    match s
    case LoadPlugin(o) => LoadFindsLive(w, o, exports);
    case ConfigurePlugin(pl, o) =>
      ConfigureSees(w, pl, o);
      AllAreLive(w, w', Configurings(pl, o), exports);
    case Serve(p, r, body, o) =>
      ServiceSees(w, p, r, body, o);
      AllAreLive(w, w', Phases(w.pctxs[p].plugin, p, body, false), exports);
    case ServeCallResponse(p, r, o) =>
      CallResponseSees(w, p, r, o);
      AllAreLive(w, w', Phases(w.pctxs[p].plugin, p, None, true), exports);
    case EndRequest(r) => CleanupFindsLive(w, r, exports);
    case FinalizeCtx(p) =>
      HandleServes(w, p);
      FinalizeFindsLive(w, p, exports);
    case FinalizePlugin(pl) =>
      HandleConfigures(w, pl);
      UnloadSees(w, pl);
      AllAreLive(w, w', Unloadings(pl, w.curState, StateLive(w)), exports);
  }

  ghost predicate AllFindLive(ss: seq<Step>, exports: Ref -> Exports)
    requires Legal(ss)
    decreases |ss|
  {
    ss == [] || (AllFindLive(ss[..|ss| - 1], exports) && FindsLive(Run(ss[..|ss| - 1]), ss[|ss| - 1], exports))
  }

  /** In every run all calls that run code of a guest find no state or one that is allocated, exactly
      when no step has made one after its state was freed. */
  lemma {:induction false} NoCallFindsAFreedStateExactlyWhen(ss: seq<Step>, exports: Ref -> Exports)
    requires Legal(ss)
    ensures (forall i :: 0 <= i < |Run(ss).calls| && Enters(Run(ss).calls[i], exports) ==> Run(ss).calls[i].stateLive)
       <==> AllFindLive(ss, exports)
    decreases |ss|
  {
    hide Inv, Next, Enabled, FindsLive, Adds, Enters;
    if ss != [] {
      var init, s := ss[..|ss| - 1], ss[|ss| - 1];
      NoCallFindsAFreedStateExactlyWhen(init, exports);
      CallsFindLiveExactlyWhen(Run(init), s, exports);
      StepSees(Run(init), s);
      AddsPrefix(Run(init), Run(ss), Seeings(Run(init), s));
      assert forall i :: 0 <= i < |Run(init).calls| ==> Run(ss).calls[i] == Run(init).calls[i];
    }
  }

  // ------------------------------------------------------------------------------------
  // How it goes wrong

  /** A plugin without contexts refuses its context and is then finalized: cur_state still points
      into the plugin that has been freed. */
  lemma RefusedThenFinalizedDangles(w: World, pl: Ref, o: ConfigureAnswers)
    requires Inv(w) && pl in w.pluginHandles && pl in w.plugins && w.plugins[pl].occupied == []
    requires (w.plugins[pl].free != [] || o.recordOk) && o.createRc != NGX_OK
    ensures var w1 := Configuration(w, pl, o);
      pl in w1.pluginHandles && !StateLive(PluginFinalizer(w1, pl))
  {
    hide Structure, Obeyed, Needed, TakeCtx;
    HandleConfigures(w, pl);
    TakeCtxOccupied(w, pl);
  }

  lemma TakeCtxOccupied(w: World, pl: Ref)
    requires pl in w.plugins
    requires forall p :: p in w.plugins[pl].free ==> p in w.pctxs && w.pctxs[p].plugin == pl
    ensures TakeCtx(w, pl).plugins[pl].occupied == w.plugins[pl].occupied
    ensures TakeCtx(w, pl).pluginHandles == w.pluginHandles
  {
  }
}
