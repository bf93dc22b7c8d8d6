/** The entry points that serve a request keep the whole invariant. */
module EntriesHttp {
  import opened Common
  import opened Queues
  import opened Abi
  import opened Lifecycle
  import opened Invariant
  import opened Preservation
  import opened PreservationHttp
  import opened Obedience
  import opened Entries

  /** While a plugin context serves a request: its state is current, and only it may hold a body. */
  ghost predicate Serving(w: World, p: Ref) {
    && p in w.busy && OwnedCtx(w, p) && w.pctxs[p].pool.Some?
    && w.curState == Some(OfCtx(w.pctxs[p].plugin, p))
    && (forall q | q in w.busy && q in w.pctxs && q != p :: w.pctxs[q].pool.Some? && w.pctxs[q].body.None?)
  }

  // ------------------------------------------------------------------------------------
  // Entering and leaving

  lemma ArriveMarks(w: World, p: Ref, body: Option<Bytes>)
    requires CanServe(w, p)
    requires Handles(w.plugins, w.pctxs, w.busy, w.pluginHandles, w.ctxHandles)
    ensures var w' := Arrive(w, p, body);
      && ChangesOnlyMarks(w, w') && w'.touched == w.touched && w'.calls == w.calls
      && Handles(w'.plugins, w'.pctxs, w'.busy, w'.pluginHandles, w'.ctxHandles)
  {
  }

  lemma ArriveNeeds(w: World, p: Ref, body: Option<Bytes>)
    requires CanServe(w, p) && p in w.busy && Needed(w, {}) && QuietBut(w, {})
    ensures Needed(Arrive(w, p, body), {}) && Serving(Arrive(w, p, body), p)
  {
  }

  lemma ArriveStructure(w: World, p: Ref, body: Option<Bytes>)
    requires Structure(w) && CanServe(w, p)
    ensures Structure(Arrive(w, p, body))
  {
    hide Arrive;
    ArriveMarks(w, p, body);
    MarksKeep(w, Arrive(w, p, body));
  }

  lemma ArriveObeys(w: World, p: Ref, body: Option<Bytes>)
    requires Obeyed(w) && CanServe(w, p)
    ensures Obeyed(Arrive(w, p, body))
  {
    MarksMatch(Replay(Sane(w)).value, w, Arrive(w, p, body));
  }

  lemma ArriveKeeps(w: World, p: Ref, body: Option<Bytes>)
    requires Inv(w) && CanServe(w, p) && p in w.busy
    ensures InvBut(Arrive(w, p, body), {}) && Serving(Arrive(w, p, body), p)
  {
    hide Structure, Obeyed, Needed, Arrive, Serving;
    ArriveStructure(w, p, body);
    ArriveObeys(w, p, body);
    ArriveNeeds(w, p, body);
  }

  lemma ClearEffect(w: World, p: Ref)
    requires Serving(w, p)
    ensures ClearState(w) == w.(pctxs := w.pctxs[p := w.pctxs[p].(body := None)], curState := None)
  {
  }

  lemma ClearMarks(w: World, p: Ref)
    requires Serving(w, p)
    requires Handles(w.plugins, w.pctxs, w.busy, w.pluginHandles, w.ctxHandles)
    ensures var w' := ClearState(w);
      && ChangesOnlyMarks(w, w') && w'.touched == w.touched && w'.calls == w.calls
      && Handles(w'.plugins, w'.pctxs, w'.busy, w'.pluginHandles, w'.ctxHandles)
  {
    hide ClearState;
    ClearEffect(w, p);
  }

  lemma ClearNeeds(w: World, p: Ref)
    requires Needed(w, {}) && Serving(w, p)
    ensures Needed(ClearState(w), {}) && QuietBut(ClearState(w), {}) && ClearState(w).curState.None?
  {
  }

  lemma ClearStructure(w: World, p: Ref)
    requires Structure(w) && Serving(w, p)
    ensures Structure(ClearState(w))
  {
    hide ClearState;
    ClearMarks(w, p);
    MarksKeep(w, ClearState(w));
  }

  lemma ClearObeys(w: World, p: Ref)
    requires Obeyed(w) && Serving(w, p)
    ensures Obeyed(ClearState(w))
  {
    MarksMatch(Replay(Sane(w)).value, w, ClearState(w));
  }

  lemma ClearKeeps(w: World, p: Ref)
    requires InvBut(w, {}) && Serving(w, p)
    ensures Inv(ClearState(w)) && ClearState(w).curState.None?
  {
    hide Structure, Obeyed, Needed, ClearState, Serving;
    ClearStructure(w, p);
    ClearObeys(w, p);
    ClearNeeds(w, p);
  }

  // ------------------------------------------------------------------------------------
  // Looking up an HTTP context

  lemma TouchKeeps(w: World, p: Ref, r: ReqId)
    requires InvBut(w, {}) && Serving(w, p)
    ensures var w' := w.(touched := w.touched + {r}); InvBut(w', {}) && Serving(w', p)
  {
    RequestsIgnoreTouch(w.touched, w.touched + {r}, w.requests, w.holder, w.hctxs, w.busyHttp);
  }

  lemma AddArrayRequests(w: World, r: ReqId)
    requires Requests(w.touched, w.requests, w.holder, w.hctxs, w.busyHttp) && r in w.touched
    ensures Requests(w.touched, AddArray(w, r).requests, w.holder, w.hctxs, w.busyHttp)
  {
  }

  lemma AddArrayStructure(w: World, r: ReqId)
    requires Structure(w) && r in w.touched
    ensures Structure(AddArray(w, r))
  {
    AddArrayRequests(w, r);
  }

  lemma AddArrayKeeps(w: World, p: Ref, r: ReqId)
    requires InvBut(w, {}) && Serving(w, p) && r in w.touched
    ensures InvBut(AddArray(w, r), {}) && Serving(AddArray(w, r), p)
  {
    hide Structure;
    AddArrayStructure(w, r);
  }

  lemma TakeHttpObeys(w: World, p: Ref)
    requires Structure(w) && Obeyed(w) && CanTake(w, p)
    ensures Obeyed(TakeHttp(w, p))
  {
    TakeHttpMatches(Replay(Sane(w)).value, w, p);
    FollowedFewer(w.calls, w.wrapped, TakeHttp(w, p).wrapped, w.pctxs[p].plugin);
  }

  lemma TakeHttpNeeds(w: World, p: Ref)
    requires CanTake(w, p) && Needed(w, {}) && Serving(w, p)
    ensures var w' := TakeHttp(w, p); Needed(w', {}) && Serving(w', p) && SpareHttp(w', p)
  {
  }

  lemma TakeHttpInv(w: World, p: Ref)
    requires InvBut(w, {}) && Serving(w, p)
    ensures var w' := TakeHttp(w, p); InvBut(w', {}) && Serving(w', p) && SpareHttp(w', p)
  {
    hide Structure, Obeyed, Needed, TakeHttp;
    TakeHttpKeeps(w, p);
    TakeHttpObeys(w, p);
    TakeHttpNeeds(w, p);
  }

  /** The record at the end of the free queue of a plugin context is a child of it, not in use. */
  lemma SpareHttpFacts(w: World, p: Ref)
    requires ChildQueues(w.pctxs, w.hctxs, w.busyHttp) && SpareHttp(w, p)
    ensures var h := Last(w.pctxs[p].free); h in w.hctxs && w.hctxs[h].parent == p && h !in w.busyHttp
  {
    assert Last(w.pctxs[p].free) in w.pctxs[p].free;
  }

  lemma AnnounceHttpMatches(t: Tracker, w: World, p: Ref, ok: bool)
    requires Matches(t, w) && SpareHttp(w, p) && Last(w.pctxs[p].free) in w.hctxs
    ensures Matches(t, AnnounceHttp(w, p, ok))
  {
    hide RootsKnown, StreamsKnown, OnlyInUse;
  }

  lemma RefusedHttpObeys(w: World, p: Ref, r: ReqId)
    requires Structure(w) && Obeyed(w) && SpareHttp(w, p) && p in w.busy && Last(w.pctxs[p].free) in w.hctxs
    requires r in w.requests
    ensures Obeyed(RotateHttp(AnnounceHttp(w, p, false), p))
  {
    hide Matches, Allows, Learn, PluginQueues, ChildQueues, Pools, Requests, Handles, Ids, Counters, Addresses,
         Structure;
    StructureQueues(w);
    AnnounceHttpMatches(Replay(Sane(w)).value, w, p, false);
    var t := Replay(Sane(w)).value;
    var w1 := AnnounceHttp(w, p, false);
    SpareHttpFacts(w, p);
    ActivateHttpMatches(t, w1, p, r);
    CallExtends(w.calls, w.wrapped, w1.calls[|w.calls|], t);
    RotateHttpMatches(t, w1, p);
  }

  lemma AcceptedHttpObeys(w: World, p: Ref, r: ReqId)
    requires Structure(w) && Obeyed(w) && SpareHttp(w, p) && p in w.busy && Last(w.pctxs[p].free) in w.hctxs
    requires r in w.requests
    ensures Obeyed(ActivateHttp(AnnounceHttp(w, p, true), p, r))
  {
    hide Matches, Allows, PluginQueues, ChildQueues, Pools, Requests, Handles, Ids, Counters, Addresses, Structure;
    StructureQueues(w);
    AnnounceHttpMatches(Replay(Sane(w)).value, w, p, true);
    var t := Replay(Sane(w)).value;
    var h := Last(w.pctxs[p].free);
    var w1 := AnnounceHttp(w, p, true);
    SpareHttpFacts(w, p);
    ActivateHttpMatches(t, w1, p, r);
    CallExtends(w.calls, w.wrapped, w1.calls[|w.calls|],
                t.(live := Learn(t.live, HttpKey(w, h), LiveCtx(w.pctxs[p].id, false), w.wrapped)));
  }

  lemma AnnounceHttpKeeps(w: World, p: Ref, ok: bool)
    requires Structure(w) && Needed(w, {}) && Serving(w, p) && SpareHttp(w, p) && Last(w.pctxs[p].free) in w.hctxs
    ensures var w' := AnnounceHttp(w, p, ok);
      Structure(w') && Needed(w', {}) && Serving(w', p) && SpareHttp(w', p)
  {
  }

  lemma RotateHttpNeeds(w: World, p: Ref)
    requires SpareHttp(w, p) && Needed(w, {}) && Serving(w, p)
    ensures Needed(RotateHttp(w, p), {}) && Serving(RotateHttp(w, p), p)
  {
  }

  lemma ActivateHttpNeeds(w: World, p: Ref, r: ReqId)
    requires SpareHttp(w, p) && r in w.requests && Needed(w, {}) && Serving(w, p)
    ensures Needed(ActivateHttp(w, p, r), {}) && Serving(ActivateHttp(w, p, r), p)
  {
  }

  lemma RefusedHttpKeeps(w: World, p: Ref, r: ReqId)
    requires InvBut(w, {}) && Serving(w, p) && SpareHttp(w, p) && Last(w.pctxs[p].free) in w.hctxs
    requires r in w.requests
    ensures var w' := RotateHttp(AnnounceHttp(w, p, false), p); InvBut(w', {}) && Serving(w', p)
  {
    hide Structure, Obeyed, Needed, RotateHttp, AnnounceHttp;
    var w1 := AnnounceHttp(w, p, false);
    AnnounceHttpKeeps(w, p, false);
    RefusedHttpObeys(w, p, r);
    RotateHttpKeeps(w1, p);
    RotateHttpNeeds(w1, p);
  }

  lemma AcceptedHttpKeeps(w: World, p: Ref, r: ReqId)
    requires InvBut(w, {}) && Serving(w, p) && SpareHttp(w, p) && Last(w.pctxs[p].free) in w.hctxs
    requires r in w.requests && Entry(w, r, p).None?
    ensures var w' := ActivateHttp(AnnounceHttp(w, p, true), p, r); InvBut(w', {}) && Serving(w', p)
  {
    hide Structure, Obeyed, Needed, ActivateHttp;
    var w1 := AnnounceHttp(w, p, true);
    AnnounceHttpKeeps(w, p, true);
    AcceptedHttpObeys(w, p, r);
    ActivateHttpKeeps(w1, p, r);
    ActivateHttpNeeds(w1, p, r);
  }

  lemma CreateHttpKeeps(w: World, p: Ref, r: ReqId, o: FetchAnswers)
    requires InvBut(w, {}) && Serving(w, p) && r in w.requests && Entry(w, r, p).None?
    requires CanServe(w, p)
    ensures var w' := CreateHttp(w, p, r, o); InvBut(w', {}) && Serving(w', p)
  {
    hide Structure, Obeyed, Needed, Serving, RotateHttp, ActivateHttp, AnnounceHttp;
    if w.pctxs[p].free != [] || o.recordOk {
      var w1 := TakeHttp(w, p);
      TakeHttpInv(w, p);
      TakeHttpScope(w, p, r);
      if o.createRc != NGX_OK {
        RefusedHttpKeeps(w1, p, r);
      } else {
        AcceptedHttpKeeps(w1, p, r);
      }
    }
  }

  /** A newly minted record is in nobody's array yet. */
  lemma TakeHttpEntries(w: World, p: Ref, r: ReqId)
    requires CanServe(w, p) && r in w.requests && w.nextHttp !in w.hctxs && Entry(w, r, p).None?
    requires forall h :: h in w.requests[r] ==> h in w.hctxs
    ensures var w' := TakeHttp(w, p);
      Last(w'.pctxs[p].free) in w'.hctxs && r in w'.requests && Entry(w', r, p).None?
  {
    assert w.pctxs[p].free != [] ==> Last(w.pctxs[p].free) in w.pctxs[p].free;
  }

  lemma TakeHttpScope(w: World, p: Ref, r: ReqId)
    requires CanServe(w, p) && r in w.requests && Structure(w) && Entry(w, r, p).None?
    ensures var w' := TakeHttp(w, p);
      Last(w'.pctxs[p].free) in w'.hctxs && r in w'.requests && Entry(w', r, p).None?
  {
    hide TakeHttp, PluginQueues, Pools, Handles, Ids, Counters;
    TakeHttpEntries(w, p, r);
  }

  lemma FetchKeeps(w: World, p: Ref, r: ReqId, o: FetchAnswers)
    requires InvBut(w, {}) && Serving(w, p) && CanServe(w, p)
    ensures var w' := Fetch(w, p, r, o); InvBut(w', {}) && Serving(w', p)
  {
    hide Structure, Obeyed, Needed, Serving, CreateHttp;
    if r in w.touched || o.moduleCtxOk {
      var w1 := w.(touched := w.touched + {r});
      TouchKeeps(w, p, r);
      if (r in w.requests || o.arrayOk) && Entry(w1, r, p).None? {
        AddArrayKeeps(w1, p, r);
        CreateHttpKeeps(AddArray(w1, r), p, r, o);
      }
    }
  }

  // ------------------------------------------------------------------------------------
  // Serving

  /** A guest callback made while its context serves a request. */
  lemma CallbackKeeps(w: World, p: Ref, what: What)
    requires InvBut(w, {}) && Serving(w, p)
    requires !what.Loaded? && !what.Unloaded?
    requires w.pctxs[p].plugin !in w.wrapped ==>
      Allows(Replay(Sane(w)).value, w.pctxs[p].plugin, what, Replay(Sane(w)).value)
    ensures var w' := Emit(w, w.pctxs[p].plugin, what); InvBut(w', {}) && Serving(w', p)
  {
    hide Matches, PluginQueues, ChildQueues, Pools, Requests, Handles, Ids, Counters, Addresses;
    var w' := Emit(w, w.pctxs[p].plugin, what);
    PlainCallObeys(w, w', w'.calls[|w.calls|]);
  }

  lemma StreamKnown(t: Tracker, w: World, p: Ref, h: Ref, body: Option<Bytes>)
    requires Matches(t, w) && Ids(w.plugins, w.pctxs, w.hctxs, w.minted, w.wrapped)
    requires p in w.busy && p in w.pctxs && h in w.busyHttp && h in w.hctxs && w.hctxs[h].parent == p
    requires w.pctxs[p].plugin !in w.wrapped
    ensures Allows(t, w.pctxs[p].plugin, OnStream(w.hctxs[h].id, body), t)
  {
  }

  lemma EntryInUse(w: World, r: ReqId, p: Ref)
    requires Requests(w.touched, w.requests, w.holder, w.hctxs, w.busyHttp) && Entry(w, r, p).Some?
    ensures var h := Entry(w, r, p).value; h in w.busyHttp && h in w.hctxs && w.hctxs[h].parent == p
  {
  }

  lemma StreamAllowed(w: World, p: Ref, r: ReqId, body: Option<Bytes>)
    requires Structure(w) && Obeyed(w) && p in w.busy && p in w.pctxs && Entry(w, r, p).Some?
    ensures var what := OnStream(w.hctxs[Entry(w, r, p).value].id, body);
      w.pctxs[p].plugin !in w.wrapped ==> Allows(Replay(Sane(w)).value, w.pctxs[p].plugin, what, Replay(Sane(w)).value)
  {
    hide Allows, Matches, PluginQueues, ChildQueues, Pools, Handles, Ids, Counters, Addresses;
    if w.pctxs[p].plugin !in w.wrapped {
      EntryInUse(w, r, p);
      StreamKnown(Replay(Sane(w)).value, w, p, Entry(w, r, p).value, body);
    }
  }

  lemma CallResponseAllowed(w: World, p: Ref)
    requires Obeyed(w) && p in w.busy && p in w.pctxs
    ensures w.pctxs[p].plugin !in w.wrapped ==>
              Allows(Replay(Sane(w)).value, w.pctxs[p].plugin, OnHttpCallResponse(w.pctxs[p].id), Replay(Sane(w)).value)
  {
  }

  lemma ServedKeeps(w: World, p: Ref, r: ReqId, body: Option<Bytes>, o: FetchAnswers)
    requires Inv(w) && p in w.busy && CanServe(w, p)
    ensures var w1 := Fetch(Arrive(w, p, body), p, r, o);
      InvBut(w1, {}) && Serving(w1, p)
  {
    hide Structure, Obeyed, Needed, Fetch;
    ArriveKeeps(w, p, body);
    FetchKeeps(Arrive(w, p, body), p, r, o);
  }

  lemma OnHttpKeeps(w: World, p: Ref, r: ReqId, body: Option<Bytes>, o: FetchAnswers)
    requires Inv(w) && p in w.busy && CanServe(w, p)
    ensures var w' := OnHttp(w, p, r, body, o).0; Inv(w') && w'.curState.None?
  {
    hide Structure, Obeyed, Needed, Fetch, Arrive, ClearState;
    var w1 := Fetch(Arrive(w, p, body), p, r, o);
    ServedKeeps(w, p, r, body, o);
    var e := Entry(w1, r, p);
    if e.None? {
      ClearKeeps(w1, p);
    } else {
      var what := OnStream(w1.hctxs[e.value].id, body);
      StreamAllowed(w1, p, r, body);
      CallbackKeeps(w1, p, what);
      ClearKeeps(Emit(w1, w.pctxs[p].plugin, what), p);
    }
  }

  lemma OnHttpCallRespKeeps(w: World, p: Ref, r: ReqId, o: FetchAnswers)
    requires Inv(w) && p in w.busy && CanServe(w, p)
    ensures var w' := OnHttpCallResp(w, p, r, o).0; Inv(w') && w'.curState.None?
  {
    hide Structure, Obeyed, Needed, Fetch, Arrive, ClearState;
    var w1 := Fetch(Arrive(w, p, None), p, r, o);
    ServedKeeps(w, p, r, None, o);
    if Entry(w1, r, p).None? {
      ClearKeeps(w1, p);
    } else {
      var what := OnHttpCallResponse(w1.pctxs[p].id);
      CallResponseAllowed(w1, p);
      CallbackKeeps(w1, p, what);
      ClearKeeps(Emit(w1, w.pctxs[p].plugin, what), p);
    }
  }

  // ------------------------------------------------------------------------------------
  // Cleaning up

  /** The guest knows the HTTP context and can be told that it is done with. */
  lemma HttpCanGo(t: Tracker, w: World, h: Ref)
    requires Matches(t, w) && Ids(w.plugins, w.pctxs, w.hctxs, w.minted, w.wrapped)
    requires HasParent(w, h) && h in w.busyHttp && HttpKey(w, h).0 !in w.wrapped
    ensures var k := HttpKey(w, h);
      k in t.live && !t.live[k].done && t.live[k].parent != k.1 && !HasChild(t, k.0, k.1)
  {
    NoGrandchild(t, w, h);
    assert w.minted[(HttpKey(w, h).0, w.pctxs[w.hctxs[h].parent].id)] == CtxRecord(w.hctxs[h].parent);
  }

  lemma FirstInUse(w: World, r: ReqId)
    requires Requests(w.touched, w.requests, w.holder, w.hctxs, w.busyHttp) && HasFirst(w, r)
    ensures HasParent(w, w.requests[r][0]) && w.requests[r][0] in w.busyHttp
  {
    assert w.requests[r][0] in w.requests[r];
  }

  lemma RetireHttpObeys(w: World, r: ReqId)
    requires Structure(w) && Obeyed(w) && HasFirst(w, r)
    ensures Obeyed(RetireHttp(w, r))
  {
    hide Matches, Ids, HasChild, Allows, Requests, PluginQueues, ChildQueues, Pools, Handles, Counters, Addresses;
    FirstInUse(w, r);
    var t := Replay(Sane(w)).value;
    var h := w.requests[r][0];
    var pl, id := HttpKey(w, h).0, w.hctxs[h].id;
    RetireHttpMatches(t, w, r);
    if pl !in w.wrapped {
      HttpCanGo(t, w, h);
      DoneThenDelete(t, pl, id);
    } else {
      NotFollowed(t, w, (pl, id));
    }
    DoneAndDeleteExtend(w, t, pl, id);
  }

  lemma RetireHttpNeeds(w: World, r: ReqId)
    requires HasFirst(w, r) && Needed(w, {}) && QuietBut(w, {})
    requires w.hctxs[w.requests[r][0]].parent !in w.plugins
    ensures var p := w.hctxs[w.requests[r][0]].parent;
      var w' := RetireHttp(w, r);
      && Needed(w', {p}) && QuietBut(w', {}) && w'.pctxs[p].done == w.pctxs[p].done && OwnedCtx(w', p)
      && w'.busy == w.busy && w'.plugins == w.plugins && w'.pctxs.Keys == w.pctxs.Keys
  {
  }

  /** The first entry of a request's array can be followed to live records. */
  lemma FirstIsLive(w: World, r: ReqId)
    requires Structure(w) && r in w.requests && w.requests[r] != []
    ensures HasFirst(w, r)
    ensures var p := w.hctxs[w.requests[r][0]].parent; p in w.busy && p !in w.plugins
    ensures w.plugins.Keys !! w.pctxs.Keys
  {
    assert w.requests[r][0] in w.requests[r];
  }

  lemma CleanupOneKeeps(w: World, r: ReqId)
    requires Inv(w) && r in w.requests && w.requests[r] != []
    ensures HasFirst(w, r) && Inv(CleanupOne(w, r))
  {
    FirstIsLive(w, r);
    hide Structure, Obeyed, Needed, RetireHttp, FreeCtx;
    var p := w.hctxs[w.requests[r][0]].parent;
    var w' := RetireHttp(w, r);
    RetireHttpKeeps(w, r);
    RetireHttpObeys(w, r);
    RetireHttpNeeds(w, r);
    if w.pctxs[p].done {
      FreeCtxKeeps(w', p);
    } else {
      NeededBy(w', p);
    }
  }
}
