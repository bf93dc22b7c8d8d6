/** Each entry point of the module keeps the whole invariant. */
module Entries {
  import opened Common
  import opened Queues
  import opened Abi
  import opened Lifecycle
  import opened Invariant
  import opened Preservation
  import opened PreservationHttp
  import opened Obedience

  // ------------------------------------------------------------------------------------
  // Marks: the done bit and the body of a state

  /** The same plugin contexts up to `done` and `body`. */
  ghost predicate SameButMarks(pctxs: map<Ref, PluginCtx>, pctxs2: map<Ref, PluginCtx>) {
    && pctxs.Keys == pctxs2.Keys
    && forall p | p in pctxs :: pctxs2[p] == pctxs[p].(done := pctxs2[p].done, body := pctxs2[p].body)
  }

  ghost predicate ChangesOnlyMarks(w: World, w': World) {
    && SameButMarks(w.pctxs, w'.pctxs)
    && w' == w.(pctxs := w'.pctxs, ctxHandles := w'.ctxHandles, curState := w'.curState, calls := w'.calls,
                touched := w'.touched)
  }

  lemma QueuesIgnoreMarks(plugins: map<Ref, Plugin>, pctxs: map<Ref, PluginCtx>, pctxs2: map<Ref, PluginCtx>,
                          busy: set<Ref>)
    requires PluginQueues(plugins, pctxs, busy) && SameButMarks(pctxs, pctxs2)
    ensures PluginQueues(plugins, pctxs2, busy)
  {
  }

  lemma ChildrenIgnoreMarks(pctxs: map<Ref, PluginCtx>, pctxs2: map<Ref, PluginCtx>, hctxs: map<Ref, HttpCtx>,
                            busyHttp: set<Ref>)
    requires ChildQueues(pctxs, hctxs, busyHttp) && SameButMarks(pctxs, pctxs2)
    ensures ChildQueues(pctxs2, hctxs, busyHttp)
  {
  }

  lemma PoolsIgnoreMarks(pctxs: map<Ref, PluginCtx>, pctxs2: map<Ref, PluginCtx>, busy: set<Ref>, pools: map<Ref, Ref>)
    requires Pools(pctxs, busy, pools) && SameButMarks(pctxs, pctxs2)
    ensures Pools(pctxs2, busy, pools)
  {
  }

  lemma AddressesIgnoreMarks(plugins: map<Ref, Plugin>, pctxs: map<Ref, PluginCtx>, pctxs2: map<Ref, PluginCtx>,
                             hctxs: map<Ref, HttpCtx>, pools: map<Ref, Ref>, next: Ref, nextHttp: Ref, freed: seq<Ref>)
    requires Addresses(plugins, pctxs, hctxs, pools, next, nextHttp, freed) && SameButMarks(pctxs, pctxs2)
    ensures Addresses(plugins, pctxs2, hctxs, pools, next, nextHttp, freed)
  {
  }

  lemma RequestsIgnoreTouch(touched: set<ReqId>, touched2: set<ReqId>, requests: map<ReqId, seq<Ref>>,
                            holder: map<Ref, ReqId>, hctxs: map<Ref, HttpCtx>, busyHttp: set<Ref>)
    requires Requests(touched, requests, holder, hctxs, busyHttp) && touched <= touched2
    ensures Requests(touched2, requests, holder, hctxs, busyHttp)
  {
  }

  lemma IdsIgnoreMarks(plugins: map<Ref, Plugin>, pctxs: map<Ref, PluginCtx>, pctxs2: map<Ref, PluginCtx>,
                       hctxs: map<Ref, HttpCtx>, minted: map<(Ref, nat), Record>, wrapped: set<Ref>)
    requires Ids(plugins, pctxs, hctxs, minted, wrapped) && SameButMarks(pctxs, pctxs2)
    ensures Ids(plugins, pctxs2, hctxs, minted, wrapped)
  {
  }

  lemma MarksKeep(w: World, w': World)
    requires Structure(w) && ChangesOnlyMarks(w, w') && w.touched <= w'.touched
    requires Handles(w'.plugins, w'.pctxs, w'.busy, w'.pluginHandles, w'.ctxHandles)
    ensures Structure(w')
  {
    QueuesIgnoreMarks(w.plugins, w.pctxs, w'.pctxs, w.busy);
    ChildrenIgnoreMarks(w.pctxs, w'.pctxs, w.hctxs, w.busyHttp);
    PoolsIgnoreMarks(w.pctxs, w'.pctxs, w.busy, w.pools);
    AddressesIgnoreMarks(w.plugins, w.pctxs, w'.pctxs, w.hctxs, w.pools, w.next, w.nextHttp, w.freed);
    RequestsIgnoreTouch(w.touched, w'.touched, w.requests, w.holder, w.hctxs, w.busyHttp);
    IdsIgnoreMarks(w.plugins, w.pctxs, w'.pctxs, w.hctxs, w.minted, w.wrapped);
  }

  lemma MarksMatch(t: Tracker, w: World, w': World)
    requires Matches(t, w) && ChangesOnlyMarks(w, w')
    ensures Matches(t, w')
  {
  }

  // ------------------------------------------------------------------------------------
  // Histories

  /** One call that the acceptor allows, or that is left out, extends an accepted history. */
  lemma CallExtends(calls: seq<Call>, x: set<Ref>, c: Call, t2: Tracker)
    requires Replay(SaneCalls(calls, x)).Some?
    requires var t := Replay(SaneCalls(calls, x)).value;
      if Kept(c, x) then Allows(t, c.plugin, c.what, t2) else t2 == t
    ensures Replay(SaneCalls(calls + [c], x)) == Some(t2)
  {
    SaneSnoc(calls, c, x);
    ReplaySnoc(SaneCalls(calls, x), c);
    assert SaneCalls(calls, x) + [] == SaneCalls(calls, x);
  }

  /** The plugins that are followed become fewer by one at most. */
  lemma FollowedFewer(calls: seq<Call>, x: set<Ref>, x2: set<Ref>, pl: Ref)
    requires Replay(SaneCalls(calls, x)).Some? && (x2 == x || x2 == x + {pl})
    ensures Replay(SaneCalls(calls, x2)) == Some(Followed(Replay(SaneCalls(calls, x)).value, x, x2, pl))
  {
    if x2 != x {
      SaneWithout(calls, x, pl);
    }
  }

  // ------------------------------------------------------------------------------------
  // Freeing plugins and plugin contexts

  /** Quiet, with the possible exception of one context. */
  ghost predicate QuietBut(w: World, x: set<Ref>) {
    && (w.curState.Some? ==> w.curState.value.OfPlugin?)
    && (forall p | p in w.busy && p in w.pctxs && p !in x :: w.pctxs[p].pool.Some? && w.pctxs[p].body.None?)
  }

  ghost predicate InvBut(w: World, x: set<Ref>) {
    Structure(w) && Obeyed(w) && Needed(w, x)
  }

  lemma DiscardPluginObeys(w: World, pl: Ref)
    requires Structure(w) && Obeyed(w) && Unused(w, pl)
    ensures Obeyed(DiscardPlugin(w, pl))
  {
    var t := Replay(Sane(w)).value;
    DiscardPluginMatches(t, w, pl);
    var e := Emit(w, pl, Unloaded).calls[|w.calls|];
    CallExtends(w.calls, w.wrapped, e, t.(loaded := t.loaded - {pl}, unloaded := t.unloaded + {pl}));
  }

  lemma DiscardPluginNeeds(w: World, pl: Ref)
    requires PluginQueues(w.plugins, w.pctxs, w.busy) && Unused(w, pl) && pl !in w.pctxs && Needed(w, {pl})
    ensures Needed(DiscardPlugin(w, pl), {})
    ensures QuietBut(w, {}) ==> QuietBut(DiscardPlugin(w, pl), {})
  {
    DiscardTakesContexts(w, pl);
  }

  lemma FreePluginKeeps(w: World, pl: Ref)
    requires InvBut(w, {pl}) && pl in w.plugins && w.plugins[pl].done
    ensures InvBut(FreePlugin(w, pl), {})
    ensures QuietBut(w, {}) ==> QuietBut(FreePlugin(w, pl), {})
  {
    if w.plugins[pl].occupied == [] {
      DiscardPluginKeeps(w, pl);
      DiscardPluginObeys(w, pl);
      DiscardPluginNeeds(w, pl);
    } else {
      assert FreePlugin(w, pl) == w;
    }
  }

  /** The guest knows the context and can be told that it is done with. */
  lemma CtxCanGo(t: Tracker, w: World, p: Ref)
    requires Matches(t, w) && Ids(w.plugins, w.pctxs, w.hctxs, w.minted, w.wrapped)
    requires ChildQueues(w.pctxs, w.hctxs, w.busyHttp) && Idle(w, p) && w.pctxs[p].plugin !in w.wrapped
    ensures var k := CtxKey(w, p);
      k in t.live && !t.live[k].done && t.live[k].parent != k.1 && !HasChild(t, k.0, k.1)
  {
    NoChildKnown(t, w, p);
  }

  lemma NotFollowed(t: Tracker, w: World, k: (Ref, nat))
    requires Matches(t, w) && k.0 in w.wrapped
    ensures k !in t.live && t.live - {k} == t.live
  {
  }

  /** Done and delete of a context, told or left out. */
  lemma DoneAndDeleteExtend(w: World, t: Tracker, pl: Ref, id: nat)
    requires Replay(Sane(w)) == Some(t)
    requires pl in w.wrapped ==> t.live - {(pl, id)} == t.live
    requires pl !in w.wrapped ==>
      && (pl, id) in t.live
      && var t1 := t.(live := t.live[(pl, id) := t.live[(pl, id)].(done := true)]);
         Allows(t, pl, OnDone(id), t1) && Allows(t1, pl, OnDelete(id), t.(live := t.live - {(pl, id)}))
    ensures Replay(SaneCalls(Emit(Emit(w, pl, OnDone(id)), pl, OnDelete(id)).calls, w.wrapped))
         == Some(t.(live := t.live - {(pl, id)}))
  {
    hide Allows;
    var t1 := if pl in w.wrapped then t else t.(live := t.live[(pl, id) := t.live[(pl, id)].(done := true)]);
    var w1 := Emit(w, pl, OnDone(id));
    CallExtends(w.calls, w.wrapped, w1.calls[|w.calls|], t1);
    CallExtends(w1.calls, w.wrapped, Emit(w1, pl, OnDelete(id)).calls[|w1.calls|], t.(live := t.live - {(pl, id)}));
  }

  lemma RetireCtxObeys(w: World, p: Ref)
    requires Structure(w) && Obeyed(w) && Idle(w, p)
    ensures Obeyed(RetireCtx(w, p))
  {
    hide Matches, Ids, HasChild, Allows, PluginQueues, ChildQueues, Pools, Handles, Counters, Addresses, Requests;
    var t := Replay(Sane(w)).value;
    var pl, id := w.pctxs[p].plugin, w.pctxs[p].id;
    RetireCtxMatches(t, w, p);
    if pl !in w.wrapped {
      CtxCanGo(t, w, p);
      DoneThenDelete(t, pl, id);
    } else {
      NotFollowed(t, w, (pl, id));
    }
    DoneAndDeleteExtend(w, t, pl, id);
  }

  /** Once retired, the context no longer counts; its plugin may be left without a reason to stay. */
  lemma RetireCtxNeeds(w: World, p: Ref)
    requires PluginQueues(w.plugins, w.pctxs, w.busy) && Idle(w, p) && Needed(w, {p}) && p !in w.plugins
    ensures Needed(RetireCtx(w, p), {w.pctxs[p].plugin})
    ensures QuietBut(w, {p}) ==> QuietBut(RetireCtx(w, p), {})
  {
  }

  lemma RetireCtxScope(w: World, p: Ref)
    requires OwnedCtx(w, p)
    ensures RetireCtx(w, p).pctxs.Keys == w.pctxs.Keys && RetireCtx(w, p).plugins.Keys == w.plugins.Keys
    ensures RetireCtx(w, p).plugins[w.pctxs[p].plugin].done == w.plugins[w.pctxs[p].plugin].done
  {
  }

  lemma RetireCtxInv(w: World, p: Ref)
    requires InvBut(w, {p}) && Idle(w, p)
    ensures InvBut(RetireCtx(w, p), {w.pctxs[p].plugin})
    ensures QuietBut(w, {p}) ==> QuietBut(RetireCtx(w, p), {})
  {
    RetireCtxKeeps(w, p);
    RetireCtxObeys(w, p);
    RetireCtxNeeds(w, p);
  }

  lemma NeededBy(w: World, x: Ref)
    requires Needed(w, {x})
    requires x in w.busy && x in w.pctxs ==> !w.pctxs[x].done || w.pctxs[x].occupied != []
    requires x in w.plugins ==> !w.plugins[x].done || w.plugins[x].occupied != []
    ensures Needed(w, {})
  {
  }

  lemma FreeCtxKeeps(w: World, p: Ref)
    requires InvBut(w, {p}) && p in w.busy && OwnedCtx(w, p) && w.pctxs[p].done
    requires w.plugins.Keys !! w.pctxs.Keys
    requires QuietBut(w, if w.pctxs[p].occupied == [] then {p} else {})
    ensures Inv(FreeCtx(w, p))
  {
    hide RetireCtx, Structure, Obeyed, Needed, DiscardPlugin;
    if w.pctxs[p].occupied == [] {
      var pl := w.pctxs[p].plugin;
      RetireCtxInv(w, p);
      RetireCtxScope(w, p);
      assert pl !in w.pctxs.Keys;
      if w.plugins[pl].done {
        FreePluginKeeps(RetireCtx(w, p), pl);
      } else {
        NeededBy(RetireCtx(w, p), pl);
      }
    } else {
      assert p !in w.plugins.Keys;
      NeededBy(w, p);
    }
  }

  // ------------------------------------------------------------------------------------
  // Finalizers

  function MarkCtx(w: World, p: Ref): World
    requires p in w.pctxs
  {
    w.(pctxs := w.pctxs[p := w.pctxs[p].(done := true)], ctxHandles := w.ctxHandles - {p})
  }

  lemma MarkCtxParts(w: World, p: Ref)
    requires p in w.ctxHandles && p in w.pctxs
    requires Handles(w.plugins, w.pctxs, w.busy, w.pluginHandles, w.ctxHandles) && Needed(w, {})
    ensures var w' := MarkCtx(w, p);
      && Handles(w'.plugins, w'.pctxs, w'.busy, w'.pluginHandles, w'.ctxHandles) && Needed(w', {p})
      && ChangesOnlyMarks(w, w')
  {
  }

  lemma MarkCtxKeeps(w: World, p: Ref)
    requires InvBut(w, {}) && p in w.ctxHandles && p in w.pctxs
    ensures InvBut(MarkCtx(w, p), {p})
  {
    var w' := MarkCtx(w, p);
    MarkCtxParts(w, p);
    MarksKeep(w, w');
    MarksMatch(Replay(Sane(w)).value, w, w');
  }

  lemma DeleteCtxKeeps(w: World, p: Ref)
    requires InvBut(w, {}) && p in w.ctxHandles
    requires QuietBut(w, if p in w.pctxs && w.pctxs[p].occupied == [] then {p} else {})
    ensures OwnedCtx(w, p) && Inv(DeleteCtx(w, p))
  {
    hide FreeCtx, ChildQueues, Pools, Requests, Ids, Counters, Obeyed, Needed;
    MarkCtxKeeps(w, p);
    FreeCtxKeeps(MarkCtx(w, p), p);
  }

  function MarkPlugin(w: World, pl: Ref): World
    requires pl in w.plugins
  {
    w.(plugins := w.plugins[pl := w.plugins[pl].(done := true)], pluginHandles := w.pluginHandles - {pl})
  }

  lemma MarkPluginQueues(w: World, pl: Ref)
    requires pl in w.pluginHandles && pl in w.plugins
    requires PluginQueues(w.plugins, w.pctxs, w.busy)
    requires Handles(w.plugins, w.pctxs, w.busy, w.pluginHandles, w.ctxHandles) && Needed(w, {})
    ensures var w' := MarkPlugin(w, pl);
      && PluginQueues(w'.plugins, w'.pctxs, w'.busy)
      && Handles(w'.plugins, w'.pctxs, w'.busy, w'.pluginHandles, w'.ctxHandles) && Needed(w', {pl})
  {
  }

  lemma MarkPluginIds(w: World, pl: Ref)
    requires pl in w.plugins
    requires PluginQueues(w.plugins, w.pctxs, w.busy)
    requires Ids(w.plugins, w.pctxs, w.hctxs, w.minted, w.wrapped)
    ensures var w' := MarkPlugin(w, pl); Ids(w'.plugins, w'.pctxs, w'.hctxs, w'.minted, w'.wrapped)
  {
    IdsSurvive(w.plugins, MarkPlugin(w, pl).plugins, w.pctxs, w.pctxs, w.hctxs, w.hctxs, w.minted, w.wrapped);
  }

  lemma MarkPluginAddresses(w: World, pl: Ref)
    requires pl in w.plugins
    requires Counters(w.plugins, w.minted, w.next)
    requires Addresses(w.plugins, w.pctxs, w.hctxs, w.pools, w.next, w.nextHttp, w.freed)
    ensures var w' := MarkPlugin(w, pl);
      && Counters(w'.plugins, w'.minted, w'.next)
      && Addresses(w'.plugins, w'.pctxs, w'.hctxs, w'.pools, w'.next, w'.nextHttp, w'.freed)
  {
  }

  lemma MarkPluginObeys(w: World, pl: Ref)
    requires pl in w.plugins && Obeyed(w)
    ensures Obeyed(MarkPlugin(w, pl))
  {
  }

  lemma MarkPluginKeeps(w: World, pl: Ref)
    requires InvBut(w, {}) && pl in w.pluginHandles && pl in w.plugins
    ensures InvBut(MarkPlugin(w, pl), {pl})
  {
    hide Needed, Obeyed;
    MarkPluginQueues(w, pl);
    MarkPluginIds(w, pl);
    MarkPluginAddresses(w, pl);
    MarkPluginObeys(w, pl);
  }

  lemma HandleIsPlugin(w: World, pl: Ref)
    requires Structure(w) && pl in w.pluginHandles
    ensures pl in w.plugins
  {
    hide PluginQueues, ChildQueues, Pools, Requests, Ids, Counters, Addresses;
  }

  lemma UnloadKeeps(w: World, pl: Ref)
    requires Inv(w) && pl in w.pluginHandles
    ensures pl in w.plugins && Inv(Unload(w, pl))
  {
    hide Structure, Obeyed, Needed, FreePlugin;
    HandleIsPlugin(w, pl);
    MarkPluginKeeps(w, pl);
    FreePluginKeeps(MarkPlugin(w, pl), pl);
  }

  // ------------------------------------------------------------------------------------
  // Loading

  lemma AddPluginObeys(w: World, start: bool)
    requires Structure(w) && Obeyed(w)
    ensures Obeyed(AddPlugin(w, start))
  {
    var t := Replay(Sane(w)).value;
    AddPluginMatches(t, w, start);
    CallExtends(w.calls, w.wrapped, AddPlugin(w, start).calls[|w.calls|], t.(loaded := t.loaded + {w.next}));
  }

  lemma AbortLoadObeys(w: World, start: bool)
    requires Structure(w) && Obeyed(w)
    ensures Obeyed(AbortLoad(w, start))
  {
    var t := Replay(Sane(w)).value;
    AbortLoadMatches(t, w, start);
    var w1 := Emit(w, w.next, Loaded(start));
    CallExtends(w.calls, w.wrapped, w1.calls[|w.calls|], t.(loaded := t.loaded + {w.next}));
    CallExtends(w1.calls, w.wrapped, Emit(w1, w.next, Unloaded).calls[|w1.calls|],
                t.(unloaded := t.unloaded + {w.next}));
  }

  lemma AddPluginNeeds(w: World, start: bool)
    requires Needed(w, {}) && QuietBut(w, {})
    ensures Needed(AddPlugin(w, start), {}) && QuietBut(AddPlugin(w, start), {})
  {
  }

  lemma LoadKeeps(w: World, o: LoadAnswers)
    requires Inv(w)
    ensures Inv(Load(w, o))
  {
    hide AddPlugin, Structure, Obeyed;
    AddPluginKeeps(w, o.hasStart);
    AddPluginObeys(w, o.hasStart);
    AddPluginNeeds(w, o.hasStart);
    AbortLoadKeeps(w, o.hasStart);
    AbortLoadObeys(w, o.hasStart);
  }

  // ------------------------------------------------------------------------------------
  // Configuring

  lemma TakeCtxObeys(w: World, pl: Ref)
    requires Structure(w) && Obeyed(w) && pl in w.plugins
    ensures Obeyed(TakeCtx(w, pl))
  {
    hide Matches, Pools, Requests, Handles, TakeCtx, SaneCalls, Replay, Followed;
    TakeCtxRecords(w, pl);
    TakeCtxMatches(Replay(Sane(w)).value, w, pl);
    FollowedFewer(w.calls, w.wrapped, TakeCtx(w, pl).wrapped, pl);
  }

  lemma TakeCtxRecords(w: World, pl: Ref)
    requires Structure(w) && pl in w.plugins
    ensures forall p :: p in w.plugins[pl].free ==> p in w.pctxs && w.pctxs[p].plugin == pl
    ensures var w' := TakeCtx(w, pl);
      w'.calls == w.calls && (w'.wrapped == w.wrapped || w'.wrapped == w.wrapped + {pl})
  {
    hide ChildQueues, Pools, Requests, Handles, Ids, Counters, Addresses;
  }

  lemma TakeCtxNeeds(w: World, pl: Ref)
    requires pl in w.plugins && Fresh(w)
    requires PluginQueues(w.plugins, w.pctxs, w.busy) && Needed(w, {}) && QuietBut(w, {})
    ensures Needed(TakeCtx(w, pl), {}) && QuietBut(TakeCtx(w, pl), {})
  {
  }

  lemma TakeCtxInv(w: World, pl: Ref)
    requires Inv(w) && pl in w.plugins
    ensures Inv(TakeCtx(w, pl)) && Spare(TakeCtx(w, pl), pl)
  {
    hide Obeyed, Needed, QuietBut, ChildQueues, Pools, Requests, Ids, Counters;
    TakeCtxKeeps(w, pl);
    TakeCtxObeys(w, pl);
    TakeCtxNeeds(w, pl);
  }

  lemma AnnounceStructure(w: World, pl: Ref, ok: bool)
    requires Structure(w) && Needed(w, {}) && QuietBut(w, {}) && Spare(w, pl)
    ensures var w' := AnnounceCtx(w, pl, ok);
      Structure(w') && Needed(w', {}) && QuietBut(w', {}) && Spare(w', pl)
  {
  }

  lemma AnnounceMatches(t: Tracker, w: World, pl: Ref, ok: bool)
    requires Matches(t, w) && Spare(w, pl)
    ensures Matches(t, AnnounceCtx(w, pl, ok))
  {
    hide RootsKnown, StreamsKnown, OnlyInUse;
  }

  lemma StructureQueues(w: World)
    requires Structure(w)
    ensures PluginQueues(w.plugins, w.pctxs, w.busy) && ChildQueues(w.pctxs, w.hctxs, w.busyHttp)
    ensures Ids(w.plugins, w.pctxs, w.hctxs, w.minted, w.wrapped)
  {
    hide PluginQueues, ChildQueues, Pools, Requests, Handles, Ids, Counters, Addresses;
  }

  lemma SpareFacts(w: World, pl: Ref)
    requires PluginQueues(w.plugins, w.pctxs, w.busy) && Spare(w, pl)
    ensures var p := Last(w.plugins[pl].free); p !in w.busy && p in w.pctxs && w.pctxs[p].plugin == pl
  {
    assert Last(w.plugins[pl].free) in w.plugins[pl].free;
  }

  /** A refused context is put back, and the guest never knew it. */
  lemma RefusedCtxObeys(w: World, pl: Ref)
    requires Structure(w) && Obeyed(w) && Spare(w, pl)
    ensures Obeyed(RotateCtx(AnnounceCtx(w, pl, false), pl))
  {
    hide Matches, Allows, Learn, PluginQueues, ChildQueues, Pools, Requests, Handles, Ids, Counters, Addresses,
         Structure;
    StructureQueues(w);
    var t := Replay(Sane(w)).value;
    var w1 := AnnounceCtx(w, pl, false);
    SpareFacts(w, pl);
    ActivateCtxMatches(t, w, pl, true);
    CallExtends(w.calls, w.wrapped, w1.calls[|w.calls|], t);
    AnnounceMatches(t, w, pl, false);
    RotateCtxMatches(t, w1, pl);
  }

  lemma AcceptedCtxObeys(w: World, pl: Ref, poolOk: bool)
    requires Structure(w) && Obeyed(w) && Spare(w, pl)
    ensures Obeyed(ActivateCtx(AnnounceCtx(w, pl, true), pl, poolOk))
  {
    hide Matches, Allows, PluginQueues, ChildQueues, Pools, Requests, Handles, Ids, Counters, Addresses, Structure;
    StructureQueues(w);
    var t := Replay(Sane(w)).value;
    var p := Last(w.plugins[pl].free);
    var w1 := AnnounceCtx(w, pl, true);
    SpareFacts(w, pl);
    AnnounceMatches(t, w, pl, true);
    ActivateCtxMatches(t, w1, pl, poolOk);
    CallExtends(w.calls, w.wrapped, w1.calls[|w.calls|],
                t.(live := Learn(t.live, CtxKey(w, p), LiveCtx(0, false), w.wrapped)));
  }

  lemma RotateCtxNeeds(w: World, pl: Ref)
    requires Spare(w, pl) && Last(w.plugins[pl].free) !in w.busy
    requires Needed(w, {}) && QuietBut(w, {})
    ensures Needed(RotateCtx(w, pl), {}) && QuietBut(RotateCtx(w, pl), {})
  {
  }

  lemma ActivateCtxNeeds(w: World, pl: Ref, poolOk: bool)
    requires Spare(w, pl) && Needed(w, {}) && QuietBut(w, {})
    ensures Needed(ActivateCtx(w, pl, poolOk), {})
    ensures QuietBut(ActivateCtx(w, pl, poolOk), {Last(w.plugins[pl].free)})
  {
  }

  lemma RefusedCtxKeeps(w: World, pl: Ref)
    requires Inv(w) && Spare(w, pl)
    ensures Inv(RotateCtx(AnnounceCtx(w, pl, false), pl))
  {
    var w1 := AnnounceCtx(w, pl, false);
    AnnounceStructure(w, pl, false);
    RefusedCtxObeys(w, pl);
    assert Last(w.plugins[pl].free) in w.plugins[pl].free;
    RotateCtxKeeps(w1, pl);
    RotateCtxNeeds(w1, pl);
  }

  lemma AcceptedCtxKeeps(w: World, pl: Ref, poolOk: bool)
    requires Inv(w) && Spare(w, pl)
    ensures var p := Last(w.plugins[pl].free);
      var w' := ActivateCtx(AnnounceCtx(w, pl, true), pl, poolOk);
      InvBut(w', {}) && QuietBut(w', {p})
  {
    var w1 := AnnounceCtx(w, pl, true);
    AnnounceStructure(w, pl, true);
    AcceptedCtxObeys(w, pl, poolOk);
    ActivateCtxKeeps(w1, pl, poolOk);
    ActivateCtxNeeds(w1, pl, poolOk);
  }

  lemma ConfiguringMarks(w: World, p: Ref, garbage: Option<Bytes>)
    requires OwnedCtx(w, p)
    requires Handles(w.plugins, w.pctxs, w.busy, w.pluginHandles, w.ctxHandles)
    ensures var w' := Configuring(w, p, garbage);
      ChangesOnlyMarks(w, w') && w'.touched == w.touched
      && Handles(w'.plugins, w'.pctxs, w'.busy, w'.pluginHandles, w'.ctxHandles)
  {
    hide Configuring, Handles;
    ConfiguringChanges(w, p, garbage);
    HandlesIgnoreBodies(w.plugins, w.pctxs, Configuring(w, p, garbage).pctxs, w.busy, w.pluginHandles, w.ctxHandles);
  }

  lemma ConfiguringChanges(w: World, p: Ref, garbage: Option<Bytes>)
    requires OwnedCtx(w, p)
    ensures var w' := Configuring(w, p, garbage);
      && ChangesOnlyMarks(w, w') && w'.touched == w.touched && w'.ctxHandles == w.ctxHandles
      && forall q :: q in w.pctxs ==> q in w'.pctxs && w'.pctxs[q].done == w.pctxs[q].done
  {
    hide Configuring;
    ConfiguringIs(w, p, garbage);
  }

  lemma ConfiguringIs(w: World, p: Ref, garbage: Option<Bytes>)
    requires OwnedCtx(w, p)
    ensures var w' := Configuring(w, p, garbage);
      w' == w.(pctxs := w.pctxs[p := w.pctxs[p].(body := None)], curState := None, calls := w'.calls)
  {
  }

  lemma HandlesIgnoreBodies(plugins: map<Ref, Plugin>, pctxs: map<Ref, PluginCtx>, pctxs2: map<Ref, PluginCtx>,
                            busy: set<Ref>,
                            pluginHandles: set<Ref>, ctxHandles: set<Ref>)
    requires Handles(plugins, pctxs, busy, pluginHandles, ctxHandles) && SameButMarks(pctxs, pctxs2)
    requires forall q :: q in pctxs ==> q in pctxs2 && pctxs2[q].done == pctxs[q].done
    ensures Handles(plugins, pctxs2, busy, pluginHandles, ctxHandles)
  {
  }

  lemma ConfiguringNeeds(w: World, p: Ref, garbage: Option<Bytes>)
    requires OwnedCtx(w, p) && Needed(w, {}) && QuietBut(w, {p}) && w.pctxs[p].pool.Some?
    ensures var w' := Configuring(w, p, garbage); Needed(w', {}) && QuietBut(w', {}) && w'.curState.None?
  {
  }

  /** A call the acceptor allows without learning anything from it. */
  lemma PlainCallObeys(w: World, w': World, c: Call)
    requires Obeyed(w) && ChangesOnlyMarks(w, w') && w'.calls == w.calls + [c]
    requires Kept(c, w.wrapped) ==> Allows(Replay(Sane(w)).value, c.plugin, c.what, Replay(Sane(w)).value)
    ensures Obeyed(w')
  {
    MarksMatch(Replay(Sane(w)).value, w, w');
    CallExtends(w.calls, w.wrapped, c, Replay(Sane(w)).value);
  }

  lemma ConfiguringObeys(w: World, p: Ref, garbage: Option<Bytes>)
    requires Obeyed(w) && OwnedCtx(w, p) && p in w.busy
    ensures Obeyed(Configuring(w, p, garbage))
  {
    var w' := Configuring(w, p, garbage);
    var c := w'.calls[|w.calls|];
    assert w'.calls == w.calls + [c];
    PlainCallObeys(w, w', c);
  }

  lemma ConfiguringStructure(w: World, p: Ref, garbage: Option<Bytes>)
    requires Structure(w) && OwnedCtx(w, p)
    ensures Structure(Configuring(w, p, garbage))
  {
    hide Configuring;
    ConfiguringMarks(w, p, garbage);
    MarksKeep(w, Configuring(w, p, garbage));
  }

  lemma ConfiguringKeeps(w: World, p: Ref, garbage: Option<Bytes>)
    requires InvBut(w, {}) && QuietBut(w, {p}) && p in w.ctxHandles && OwnedCtx(w, p) && p in w.busy
    requires w.pctxs[p].pool.Some?
    ensures Inv(Configuring(w, p, garbage))
  {
    hide Structure, Obeyed, Needed, Configuring;
    ConfiguringObeys(w, p, garbage);
    ConfiguringStructure(w, p, garbage);
    ConfiguringNeeds(w, p, garbage);
  }

  lemma ConfiguringScope(w: World, p: Ref, garbage: Option<Bytes>)
    requires OwnedCtx(w, p)
    ensures var w' := Configuring(w, p, garbage);
      OwnedCtx(w', p) && w'.ctxHandles == w.ctxHandles && w'.pctxs[p].occupied == w.pctxs[p].occupied
  {
  }

  lemma ConfiguredKeeps(w: World, p: Ref, o: ConfigureAnswers)
    requires InvBut(w, {}) && QuietBut(w, {p}) && p in w.ctxHandles && OwnedCtx(w, p) && p in w.busy
    requires w.pctxs[p].occupied == [] && (o.poolOk ==> w.pctxs[p].pool.Some?)
    ensures Inv(Configured(w, p, o))
  {
    hide Structure, Obeyed, Needed, Configuring, DeleteCtx;
    if !o.poolOk || !o.stateOk {
      DeleteCtxKeeps(w, p);
    } else {
      ConfiguringKeeps(w, p, o.garbage);
      ConfiguringScope(w, p, o.garbage);
      if o.configureRc <= 0 {
        DeleteCtxKeeps(Configuring(w, p, o.garbage), p);
      }
    }
  }

  /** A context that is not in use has no children. */
  lemma SpareIsEmpty(pctxs: map<Ref, PluginCtx>, hctxs: map<Ref, HttpCtx>, busy: set<Ref>, busyHttp: set<Ref>,
                     pools: map<Ref, Ref>, p: Ref)
    requires ChildQueues(pctxs, hctxs, busyHttp) && Pools(pctxs, busy, pools)
    requires p in pctxs && p !in busy
    ensures pctxs[p].occupied == []
  {
    MemberOrEmpty(pctxs[p].occupied);
  }

  lemma AcceptedCtxScope(w: World, pl: Ref, poolOk: bool)
    requires Spare(w, pl) && w.pctxs[Last(w.plugins[pl].free)].occupied == []
    ensures var p := Last(w.plugins[pl].free);
      var w' := ActivateCtx(AnnounceCtx(w, pl, true), pl, poolOk);
      && p in w'.ctxHandles && OwnedCtx(w', p) && p in w'.busy && w'.pctxs[p].occupied == []
      && (poolOk ==> w'.pctxs[p].pool.Some?)
  {
  }

  lemma SpareCtxIsEmpty(w: World, pl: Ref)
    requires Structure(w) && Spare(w, pl)
    ensures w.pctxs[Last(w.plugins[pl].free)].occupied == []
  {
    var p := Last(w.plugins[pl].free);
    assert p in w.plugins[pl].free;
    SpareIsEmpty(w.pctxs, w.hctxs, w.busy, w.busyHttp, w.pools, p);
  }

  lemma CreatedKeeps(w: World, pl: Ref, o: ConfigureAnswers)
    requires Inv(w) && Spare(w, pl)
    ensures Inv(Created(w, pl, o))
  {
    hide Structure, Obeyed, Needed, Configured, ActivateCtx, RotateCtx;
    if o.createRc != NGX_OK {
      RefusedCtxKeeps(w, pl);
    } else {
      AcceptedCtxKeeps(w, pl, o.poolOk);
      SpareCtxIsEmpty(w, pl);
      AcceptedCtxScope(w, pl, o.poolOk);
      ConfiguredKeeps(ActivateCtx(AnnounceCtx(w, pl, true), pl, o.poolOk), Last(w.plugins[pl].free), o);
    }
  }

  lemma ConfigureKeeps(w: World, pl: Ref, o: ConfigureAnswers)
    requires Inv(w) && pl in w.plugins
    ensures Inv(Configure(w, pl, o))
  {
    hide TakeCtx, Created, ChildQueues, Pools, Requests, Ids, Counters, Obeyed, Needed;
    if w.plugins[pl].free != [] || o.recordOk {
      TakeCtxInv(w, pl);
      CreatedKeeps(TakeCtx(w, pl), pl, o);
    }
  }
}
