/**
 The module as it is written: one worker whose records are changed in place, statement by
 statement. Each method is proved to have the net effect Lifecycle gives it, so what holds
 of runs holds of what these methods do.
 */
module Worker {
  import opened Common
  import opened Queues
  import opened Abi
  import opened Lifecycle
  import opened Invariant
  import opened Preservation
  import opened PreservationHttp
  import opened Entries
  import opened EntriesHttp
  import opened Runs

  lemma WithoutNone<T>(m: map<Ref, T>)
    ensures Without(m, []) == m && Reverse<Ref>([]) == []
  {
  }

  lemma WithoutOneMore<T>(m: map<Ref, T>, q: seq<Ref>, n: nat)
    requires n < |q| && NoDup(q) && q[n] in m
    ensures q[n..] == [q[n]] + q[n + 1..]
    ensures q[n] in Without(m, q[n + 1..])
    ensures Without(m, q[n..]) == Without(m, q[n + 1..]) - {q[n]}
    ensures Reverse(q[n..]) == Reverse(q[n + 1..]) + [q[n]]
  {
    assert q[n..] == [q[n]] + q[n + 1..];
  }

  /** What a context in use can rely on when it is freed. */
  ghost predicate CtxLinked(w: World, p: Ref) {
    && OwnedCtx(w, p)
    && var pl := w.pctxs[p].plugin;
       && p in w.plugins[pl].occupied && p !in w.plugins[pl].free
       && NoDup(w.plugins[pl].free) && forall q :: q in w.plugins[pl].free ==> q in w.pctxs
  }

  lemma BusyIsLinked(w: World, p: Ref)
    requires Structure(w) && p in w.busy && p in w.pctxs
    ensures CtxLinked(w, p)
  {
  }

  // ------------------------------------------------------------------------------------
  // A plugin context between two queues

  /** The record at the end of the free queue taken out of it. */
  ghost function Picked(w: World, pl: Ref): World
    requires Spare(w, pl)
  {
    var q := w.plugins[pl].free;
    w.(plugins := w.plugins[pl := w.plugins[pl].(free := ButLast(q))],
       pctxs := w.pctxs[Last(q) := w.pctxs[Last(q)].(done := false)])
  }

  ghost function Numbered(w: World, pl: Ref, x: Record): World
    requires pl in w.plugins
  {
    var id := NextId(w.plugins[pl].curCtxId);
    w.(plugins := w.plugins[pl := w.plugins[pl].(curCtxId := id)],
       minted := w.minted[(pl, id) := x],
       wrapped := if id == 0 then w.wrapped + {pl} else w.wrapped)
  }

  ghost function Minted(w: World, pl: Ref): World
    requires pl in w.plugins
  {
    Numbered(w, pl, CtxRecord(w.next)).(
      pctxs := w.pctxs[w.next := PluginCtx(NextId(w.plugins[pl].curCtxId), pl, None, [], [], false, None)],
      next := w.next + 1)
  }

  ghost function FreedAgain(w: World, pl: Ref, p: Ref): World
    requires pl in w.plugins
  {
    w.(plugins := w.plugins[pl := w.plugins[pl].(free := InsertHead(w.plugins[pl].free, p))])
  }

  ghost function Occupying(w: World, pl: Ref, p: Ref): World
    requires pl in w.plugins
  {
    w.(plugins := w.plugins[pl := w.plugins[pl].(occupied := InsertHead(w.plugins[pl].occupied, p))],
       ctxHandles := w.ctxHandles + {p}, busy := w.busy + {p})
  }

  ghost function WithPool(w: World, p: Ref): World
    requires p in w.pctxs
  {
    w.(pctxs := w.pctxs[p := w.pctxs[p].(pool := Some(w.next))], pools := w.pools[w.next := p], next := w.next + 1)
  }

  lemma TakeCtxCases(w: World, pl: Ref)
    requires pl in w.plugins
    requires forall p :: p in w.plugins[pl].free ==> p in w.pctxs && w.pctxs[p].plugin == pl
    ensures Spare(TakeCtx(w, pl), pl)
    ensures w.plugins[pl].free != [] ==> TakeCtx(w, pl) == w
    ensures w.plugins[pl].free == [] ==>
              Picked(TakeCtx(w, pl), pl) == Minted(w, pl) && Last(TakeCtx(w, pl).plugins[pl].free) == w.next
  {
    if w.plugins[pl].free == [] {
      assert ButLast([w.next]) == [];
      var w1 := TakeCtx(w, pl);
      assert Picked(w1, pl).plugins == Minted(w, pl).plugins;
      assert Picked(w1, pl).pctxs == Minted(w, pl).pctxs;
    } else {
      assert Last(w.plugins[pl].free) in w.plugins[pl].free;
    }
  }

  lemma PickedIsAnnounced(w: World, pl: Ref, ok: bool)
    requires Spare(w, pl)
    ensures var p := Last(w.plugins[pl].free);
      && pl in Picked(w, pl).plugins && p in Picked(w, pl).pctxs && Picked(w, pl).pctxs[p].id == w.pctxs[p].id
      && Spare(AnnounceCtx(w, pl, ok), pl) && AnnounceCtx(w, pl, ok).plugins == w.plugins
      && Emit(SetState(Picked(w, pl), OfPlugin(pl)), pl, ContextCreate(w.pctxs[p].id, 0, ok))
         == Picked(AnnounceCtx(w, pl, ok), pl)
  {
  }

  lemma PickedThenFreed(w: World, pl: Ref)
    requires Spare(w, pl)
    ensures var p := Last(w.plugins[pl].free);
      pl in Picked(w, pl).plugins && FreedAgain(Picked(w, pl), pl, p) == RotateCtx(w, pl)
  {
    var p := Last(w.plugins[pl].free);
    assert FreedAgain(Picked(w, pl), pl, p).plugins == RotateCtx(w, pl).plugins;
  }

  lemma PickedThenOccupied(w: World, pl: Ref)
    requires Spare(w, pl)
    ensures var p := Last(w.plugins[pl].free);
      pl in Picked(w, pl).plugins && Occupying(Picked(w, pl), pl, p) == ActivateCtx(w, pl, false)
  {
    var p := Last(w.plugins[pl].free);
    assert Occupying(Picked(w, pl), pl, p).plugins == ActivateCtx(w, pl, false).plugins;
  }

  lemma OccupiedThenPooled(w: World, pl: Ref)
    requires Spare(w, pl)
    ensures var p := Last(w.plugins[pl].free);
      p in ActivateCtx(w, pl, false).pctxs && WithPool(ActivateCtx(w, pl, false), p) == ActivateCtx(w, pl, true)
  {
    var p := Last(w.plugins[pl].free);
    assert WithPool(ActivateCtx(w, pl, false), p).pctxs == ActivateCtx(w, pl, true).pctxs;
  }

  lemma AcceptedIsLinked(w: World, pl: Ref, poolOk: bool)
    requires Inv(w) && pl in w.plugins
    requires forall p :: p in w.plugins[pl].free ==> p in w.pctxs && w.pctxs[p].plugin == pl
    ensures var w1 := TakeCtx(w, pl);
      Spare(w1, pl) && CtxLinked(ActivateCtx(AnnounceCtx(w1, pl, true), pl, poolOk), Last(w1.plugins[pl].free))
  {
    hide Structure, Obeyed, Needed, TakeCtx, ActivateCtx, CtxLinked;
    var w1 := TakeCtx(w, pl);
    TakeCtxInv(w, pl);
    AcceptedCtxKeeps(w1, pl, poolOk);
    SpareCtxIsEmpty(w1, pl);
    AcceptedCtxScope(w1, pl, poolOk);
    BusyIsLinked(ActivateCtx(AnnounceCtx(w1, pl, true), pl, poolOk), Last(w1.plugins[pl].free));
  }

  // ------------------------------------------------------------------------------------
  // An HTTP context between two queues

  ghost function PickedHttp(w: World, p: Ref): World
    requires SpareHttp(w, p)
  {
    w.(pctxs := w.pctxs[p := w.pctxs[p].(free := ButLast(w.pctxs[p].free))])
  }

  ghost function MintedHttp(w: World, p: Ref): World
    requires CanServe(w, p)
  {
    var pl := w.pctxs[p].plugin;
    Numbered(w, pl, HttpRecord(w.nextHttp)).(
      hctxs := w.hctxs[w.nextHttp := HttpCtx(NextId(w.plugins[pl].curCtxId), p, w.pctxs[p].pool.value)],
      nextHttp := w.nextHttp + 1)
  }

  ghost function FreedHttp(w: World, p: Ref, h: Ref): World
    requires p in w.pctxs
  {
    w.(pctxs := w.pctxs[p := w.pctxs[p].(free := InsertHead(w.pctxs[p].free, h))])
  }

  ghost function OccupyingHttp(w: World, p: Ref, h: Ref, r: ReqId): World
    requires p in w.pctxs && r in w.requests
  {
    w.(pctxs := w.pctxs[p := w.pctxs[p].(occupied := InsertHead(w.pctxs[p].occupied, h))],
       requests := w.requests[r := w.requests[r] + [h]], busyHttp := w.busyHttp + {h}, holder := w.holder[h := r])
  }

  lemma TakeHttpCases(w: World, p: Ref)
    requires CanServe(w, p)
    ensures var w1 := TakeHttp(w, p);
      && SpareHttp(w1, p) && Last(w1.pctxs[p].free) in w1.hctxs
      && (w.pctxs[p].free != [] ==> w1 == w)
      && (w.pctxs[p].free == [] ==> PickedHttp(w1, p) == MintedHttp(w, p) && Last(w1.pctxs[p].free) == w.nextHttp)
  {
    if w.pctxs[p].free == [] {
      assert ButLast([w.nextHttp]) == [];
      assert PickedHttp(TakeHttp(w, p), p).pctxs == w.pctxs;
    } else {
      assert Last(w.pctxs[p].free) in w.pctxs[p].free;
    }
  }

  lemma TakeHttpKeepsName(w: World, p: Ref, r: ReqId)
    requires CanServe(w, p)
    ensures SameCtx(w, TakeHttp(w, p), p) && TakeHttp(w, p).requests == w.requests
  {
  }

  lemma PickedHttpIsAnnounced(w: World, p: Ref, ok: bool)
    requires SpareHttp(w, p) && Last(w.pctxs[p].free) in w.hctxs
    ensures var h := Last(w.pctxs[p].free);
      && p in PickedHttp(w, p).pctxs && h in PickedHttp(w, p).hctxs
      && SpareHttp(AnnounceHttp(w, p, ok), p) && Last(AnnounceHttp(w, p, ok).pctxs[p].free) == h
      && AnnounceHttp(w, p, ok).requests == w.requests
      && Emit(PickedHttp(w, p), w.pctxs[p].plugin, ContextCreate(w.hctxs[h].id, w.pctxs[p].id, ok))
         == PickedHttp(AnnounceHttp(w, p, ok), p)
      && PickedHttp(w, p).pctxs[p].plugin == w.pctxs[p].plugin && PickedHttp(w, p).pctxs[p].id == w.pctxs[p].id
      && PickedHttp(w, p).hctxs == w.hctxs
  {
  }

  lemma PickedThenFreedHttp(w: World, p: Ref)
    requires SpareHttp(w, p)
    ensures var h := Last(w.pctxs[p].free);
      p in PickedHttp(w, p).pctxs && FreedHttp(PickedHttp(w, p), p, h) == RotateHttp(w, p)
  {
    assert FreedHttp(PickedHttp(w, p), p, Last(w.pctxs[p].free)).pctxs == RotateHttp(w, p).pctxs;
  }

  lemma PickedThenOccupiedHttp(w: World, p: Ref, r: ReqId)
    requires SpareHttp(w, p) && r in w.requests
    ensures var h := Last(w.pctxs[p].free);
      && p in PickedHttp(w, p).pctxs && r in PickedHttp(w, p).requests
      && OccupyingHttp(PickedHttp(w, p), p, h, r) == ActivateHttp(w, p, r)
  {
    assert OccupyingHttp(PickedHttp(w, p), p, Last(w.pctxs[p].free), r).pctxs == ActivateHttp(w, p, r).pctxs;
  }

  lemma {:induction false} FindEntryFrom(hctxs: map<Ref, HttpCtx>, a: seq<Ref>, p: Ref, i: nat)
    requires i <= |a|
    requires forall j :: 0 <= j < i ==> a[j] in hctxs && hctxs[a[j]].parent != p
    ensures FindEntry(hctxs, a, p) == FindEntry(hctxs, a[i..], p)
    decreases |a|
  {
    if i > 0 {
      assert a[1..][i - 1..] == a[i..];
      FindEntryFrom(hctxs, a[1..], p, i - 1);
    } else {
      assert a[0..] == a;
    }
  }

  /** What fetch finds afterwards is the context it has just created, or nothing. */
  lemma CreatedIsFound(w: World, p: Ref, r: ReqId, o: FetchAnswers)
    requires CanServe(w, p) && r in w.requests && Entry(w, r, p).None? && w.nextHttp !in w.hctxs
    requires forall h :: h in w.requests[r] ==> h in w.hctxs
    requires forall h :: h in w.pctxs[p].free ==> h in w.hctxs && w.hctxs[h].parent == p
    ensures Entry(CreateHttp(w, p, r, o), r, p)
         == if (w.pctxs[p].free != [] || o.recordOk) && o.createRc == NGX_OK
            then Some(Last(TakeHttp(w, p).pctxs[p].free)) else None
  {
    if w.pctxs[p].free != [] {
      assert Last(w.pctxs[p].free) in w.pctxs[p].free;
    }
  }

  lemma EmptyArray(w: World, p: Ref, r: ReqId)
    requires r in w.requests && w.requests[r] == []
    ensures Entry(w, r, p).None?
  {
  }

  /** What looking up the HTTP contexts of a request can rely on. */
  ghost predicate Fetchable(w: World, p: Ref, r: ReqId) {
    && CanServe(w, p) && w.nextHttp !in w.hctxs
    && (r in w.requests ==> r in w.touched && forall h :: h in w.requests[r] ==> h in w.hctxs)
    && (forall h :: h in w.pctxs[p].free ==> h in w.hctxs && w.hctxs[h].parent == p)
  }

  lemma LinkedFetches(w: World, p: Ref, r: ReqId)
    requires CanServe(w, p) && w.nextHttp !in w.hctxs
    requires ChildQueues(w.pctxs, w.hctxs, w.busyHttp)
    requires Requests(w.touched, w.requests, w.holder, w.hctxs, w.busyHttp)
    ensures Fetchable(w, p, r)
  {
  }

  lemma HandleFetches(w: World, p: Ref, r: ReqId)
    requires Inv(w) && p in w.ctxHandles
    ensures Fetchable(w, p, r)
  {
    hide PluginQueues, Pools, Handles, Ids, Counters, Obeyed, Needed, Fetchable, CanServe;
    HandleServes(w, p);
    LinkedFetches(w, p, r);
  }

  lemma ArriveFetches(w: World, p: Ref, r: ReqId, body: Option<Bytes>)
    requires Fetchable(w, p, r)
    ensures Fetchable(Arrive(w, p, body), p, r)
  {
  }

  // ------------------------------------------------------------------------------------
  // The cleanup loop

  /** The world as the cleanup of r sees it after i turns: the entries before i no longer count. */
  ghost function Cut(w: World, r: ReqId, i: nat): World
    requires r in w.requests && i <= |w.requests[r]|
  {
    w.(requests := w.requests[r := w.requests[r][i..]])
  }

  /** What one turn does to the HTTP context h itself. */
  ghost function Released(w: World, h: Ref): World
    requires h in w.hctxs && OwnedCtx(w, w.hctxs[h].parent)
  {
    var p := w.hctxs[h].parent;
    var pl := w.pctxs[p].plugin;
    var id := w.hctxs[h].id;
    w.(pctxs := w.pctxs[p := w.pctxs[p].(occupied := Remove(w.pctxs[p].occupied, h),
                                         free := InsertHead(w.pctxs[p].free, h))],
       busyHttp := w.busyHttp - {h},
       calls := Emit(Emit(w, pl, OnDone(id)), pl, OnDelete(id)).calls)
  }

  lemma ReleasedIsRetired(w: World, r: ReqId, i: nat)
    requires r in w.requests && i < |w.requests[r]| && HasFirst(Cut(w, r, i), r)
    ensures var h := w.requests[r][i];
      && h in w.hctxs && OwnedCtx(w, w.hctxs[h].parent)
      && RetireHttp(Cut(w, r, i), r) == Cut(Released(w, h), r, i + 1)
  {
    assert w.requests[r][i..][1..] == w.requests[r][i + 1..];
    assert RetireHttp(Cut(w, r, i), r).requests == Cut(Released(w, w.requests[r][i]), r, i + 1).requests;
  }

  lemma FreePluginCut(w: World, r: ReqId, i: nat, pl: Ref)
    requires r in w.requests && i <= |w.requests[r]| && pl in w.plugins
    ensures FreePlugin(Cut(w, r, i), pl) == Cut(FreePlugin(w, pl), r, i)
  {
  }

  lemma RetireCtxCut(w: World, r: ReqId, i: nat, p: Ref)
    requires r in w.requests && i <= |w.requests[r]| && OwnedCtx(w, p)
    ensures RetireCtx(w, p).requests == w.requests
    ensures RetireCtx(Cut(w, r, i), p) == Cut(RetireCtx(w, p), r, i)
  {
  }

  lemma FreeCtxCut(w: World, r: ReqId, i: nat, p: Ref)
    requires r in w.requests && i <= |w.requests[r]| && OwnedCtx(w, p)
    ensures FreeCtx(w, p).requests == w.requests
    ensures FreeCtx(Cut(w, r, i), p) == Cut(FreeCtx(w, p), r, i)
  {
    hide RetireCtx, FreePlugin;
    if w.pctxs[p].occupied == [] {
      RetireCtxCut(w, r, i, p);
      RetireCtxFrame(w, p);
      FreeCtxFrame(w, p);
      assert w.pctxs[p].plugin in RetireCtx(w, p).plugins.Keys;
      FreePluginCut(RetireCtx(w, p), r, i, w.pctxs[p].plugin);
    }
  }

  lemma CutWhole(w: World, r: ReqId)
    requires r in w.requests
    ensures Cut(w, r, 0) == w
  {
    assert w.requests[r][0..] == w.requests[r];
    assert w.requests[r := w.requests[r]] == w.requests;
  }

  lemma ForgetCut(w: World, r: ReqId)
    requires r in w.requests
    ensures ForgetRequest(Cut(w, r, |w.requests[r]|), r) == ForgetRequest(w, r)
  {
    assert ForgetRequest(Cut(w, r, |w.requests[r]|), r).requests == ForgetRequest(w, r).requests;
  }

  /** What one turn does, seen from the whole array. */
  ghost function Turned(w: World, h: Ref): World
    requires h in w.hctxs && OwnedCtx(w, w.hctxs[h].parent)
  {
    var p := w.hctxs[h].parent;
    if w.pctxs[p].done then FreeCtx(Released(w, h), p) else Released(w, h)
  }

  /** The entry at i leads to live records, and to a context that is properly linked. */
  lemma CleanupTurnIsSafe(w: World, r: ReqId, i: nat)
    requires r in w.requests && i < |w.requests[r]| && r in w.touched && Inv(Cut(w, r, i))
    ensures HasFirst(Cut(w, r, i), r)
    ensures var h := w.requests[r][i];
      h in w.hctxs && OwnedCtx(w, w.hctxs[h].parent) && CtxLinked(Released(w, h), w.hctxs[h].parent)
  {
    hide Obeyed, Needed;
    FirstIsLinked(Cut(w, r, i), r);
    ReleasedIsRetired(w, r, i);
  }

  /** One turn of the loop, on the cut world. */
  lemma CleanupTurn(w: World, r: ReqId, i: nat)
    requires r in w.requests && i < |w.requests[r]| && r in w.touched && Inv(Cut(w, r, i))
    requires w.requests[r][i] in w.hctxs && OwnedCtx(w, w.hctxs[w.requests[r][i]].parent)
    ensures var w' := Turned(w, w.requests[r][i]);
      && w'.requests == w.requests && w'.touched == w.touched
      && Inv(Cut(w', r, i + 1)) && Cleanup(Cut(w', r, i + 1), r) == Cleanup(Cut(w, r, i), r)
  {
    hide Inv, RetireHttp, FreeCtx, Released;
    var c := Cut(w, r, i);
    assert c.requests[r] != [];
    CleanupOneKeeps(c, r);
    ReleasedIsRetired(w, r, i);
    var h := w.requests[r][i];
    var p := w.hctxs[h].parent;
    CleanupOneFrame(c, r);
    ReleasedFrame(w, h);
    FreeCtxCut(Released(w, h), r, i + 1, p);
    FreeCtxFrame(Released(w, h), p);
  }

  lemma ReleasedFrame(w: World, h: Ref)
    requires h in w.hctxs && OwnedCtx(w, w.hctxs[h].parent)
    ensures var w1 := Released(w, h);
      && w1.requests == w.requests && w1.touched == w.touched && OwnedCtx(w1, w.hctxs[h].parent)
      && w1.pctxs[w.hctxs[h].parent].done == w.pctxs[w.hctxs[h].parent].done
  {
  }

  lemma FirstIsLinked(w: World, r: ReqId)
    requires Structure(w) && HasFirst(w, r)
    ensures CtxLinked(w, w.hctxs[w.requests[r][0]].parent)
    ensures CtxLinked(RetireHttp(w, r), w.hctxs[w.requests[r][0]].parent)
  {
    hide Structure;
    FirstIsLive(w, r);
    BusyIsLinked(w, w.hctxs[w.requests[r][0]].parent);
  }

  /** A context that has left the occupied queue and been deleted in the guest; its pool is still there. */
  ghost function LetGo(w: World, p: Ref): World
    requires OwnedCtx(w, p)
  {
    var pl := w.pctxs[p].plugin;
    var id := w.pctxs[p].id;
    w.(plugins := w.plugins[pl := w.plugins[pl].(occupied := Remove(w.plugins[pl].occupied, p),
                                                 free := InsertHead(w.plugins[pl].free, p))],
       busy := w.busy - {p},
       calls := Emit(Emit(w, pl, OnDone(id)), pl, OnDelete(id)).calls)
  }

  /** Destroying the pool is all that is missing. */
  lemma LetGoThenDestroyed(w: World, p: Ref)
    requires OwnedCtx(w, p)
    ensures RetireCtx(w, p) == DestroyPool(LetGo(w, p), p)
    ensures w.pctxs[p].pool.None? ==> RetireCtx(w, p) == LetGo(w, p)
  {
  }

  lemma RetiredIsLinked(w: World, p: Ref)
    requires CtxLinked(w, p)
    ensures var w' := RetireCtx(w, p); var pl := w.pctxs[p].plugin;
      && pl in w'.plugins && w'.plugins[pl].done == w.plugins[pl].done && w'.pctxs.Keys == w.pctxs.Keys
      && NoDup(w'.plugins[pl].free) && forall q :: q in w'.plugins[pl].free ==> q in w'.pctxs
  {
    HeadNoDup(w.plugins[w.pctxs[p].plugin].free, p);
  }

  class Module {
    var plugins: map<Ref, Plugin>
    var pctxs: map<Ref, PluginCtx>
    var hctxs: map<Ref, HttpCtx>
    var pools: map<Ref, Ref>
    var touched: set<ReqId>
    var requests: map<ReqId, seq<Ref>>
    var curState: Option<StateOwner>
    var next: Ref
    var nextHttp: Ref

    ghost var pluginHandles: set<Ref>
    ghost var ctxHandles: set<Ref>
    ghost var busy: set<Ref>
    ghost var busyHttp: set<Ref>
    ghost var minted: map<(Ref, nat), Record>
    ghost var holder: map<Ref, ReqId>
    ghost var freed: seq<Ref>
    ghost var wrapped: set<Ref>
    ghost var calls: seq<Call>

    ghost function View(): World
      reads this
    {
      World(plugins, pctxs, hctxs, pools, touched, requests, pluginHandles, ctxHandles, curState, next, nextHttp,
            busy, busyHttp, minted, holder, freed, wrapped, calls)
    }

    /** A free queue links live records, each once. */
    ghost predicate FreeLinked(q: seq<Ref>)
      reads this
    {
      NoDup(q) && forall p :: p in q ==> p in pctxs
    }

    constructor ()
      ensures View() == Empty
    {
      plugins, pctxs, hctxs, pools, touched, requests := map[], map[], map[], map[], {}, map[];
      pluginHandles, ctxHandles, curState, next, nextHttp := {}, {}, None, 0, 0;
      busy, busyHttp, minted, holder, freed, wrapped, calls := {}, {}, map[], map[], [], {}, [];
    }

    // ----------------------------------------------------------------------------------
    // The VM and the current state

    /** ngx_wasm_vm->call, load and unload, as far as the guest can tell. */
    method CallGuest(pl: Ref, ghost what: What)
      modifies this`calls
      ensures View() == Emit(old(View()), pl, what)
    {
      calls := calls + [Call(pl, what, curState, StateLive(View()), VisibleBody(View()))];
    }

    /** ngx_http_wasm_set_state(NULL), called only while some state is current. */
    method LeaveState()
      requires curState.Some?
      modifies this`pctxs, this`curState
      ensures View() == Lifecycle.ClearState(old(View()))
    {
      match curState.value {
        case OfCtx(_, p) =>
          if p in pctxs {
            pctxs := pctxs[p := pctxs[p].(body := None)];
          }
        case OfPlugin(_) => // a plugin's own state has no body
      }
      curState := None;
    }

    // ----------------------------------------------------------------------------------
    // Plugins

    method LoadPlugin(o: LoadAnswers) returns (plugin: Option<Ref>)
      modifies this
      ensures View() == Lifecycle.Load(old(View()), o)
      ensures plugin == if Starts(o) then Some(old(next)) else None
      ensures plugin.Some? <==> o.vmOk && (o.hasStart ==> o.startRc == 0) && o.recordOk
    {
      if !o.vmOk {
        return None;
      }
      hide Emit;
      var pl := next;
      CallGuest(pl, Loaded(o.hasStart));
      var rc := if o.hasStart then o.startRc else NGX_OK;
      if rc != NGX_OK || !o.recordOk {
        AbandonVm(pl);
        return None;
      }
      KeepVm(pl);
      return Some(pl);
    }

    method AbandonVm(pl: Ref)
      modifies this`calls, this`next, this`freed
      ensures View() == Emit(old(View()), pl, Unloaded).(next := old(next) + 1, freed := old(freed) + [pl])
    {
      CallGuest(pl, Unloaded);
      next := next + 1;
      freed := freed + [pl];
    }

    method KeepVm(pl: Ref)
      modifies this`plugins, this`pluginHandles, this`next
      ensures View() == old(View()).(plugins := old(plugins)[pl := Plugin(0, [], [], false)],
                                     pluginHandles := old(pluginHandles) + {pl}, next := old(next) + 1)
    {
      next := next + 1;
      plugins := plugins[pl := Plugin(0, [], [], false)];
      pluginHandles := pluginHandles + {pl};
    }

    /** Frees the free contexts of a plugin, taking each from the end of the queue. */
    method FreeSpareContexts(pl: Ref)
      requires pl in plugins && FreeLinked(plugins[pl].free)
      modifies this`plugins, this`pctxs, this`freed
      ensures plugins == old(plugins)[pl := old(plugins)[pl].(free := [])]
      ensures pctxs == Without(old(pctxs), old(plugins)[pl].free)
      ensures freed == old(freed) + Reverse(old(plugins)[pl].free)
      ensures |freed| == |old(freed)| + |old(plugins)[pl].free|
      ensures var q, gone := old(plugins)[pl].free, freed[|old(freed)|..];
        forall i :: 0 <= i < |gone| ==> gone[i] == q[|q| - 1 - i]
    {
      hide Without, Reverse;
      ghost var q := plugins[pl].free;
      ghost var n: nat := |q|;
      assert q[n..] == [] && q[..n] == q;
      WithoutNone(pctxs);
      while plugins[pl].free != []
        invariant n <= |q|
        invariant plugins == old(plugins)[pl := old(plugins)[pl].(free := q[..n])]
        invariant pctxs == Without(old(pctxs), q[n..])
        invariant freed == old(freed) + Reverse(q[n..])
        decreases n
      {
        var p := Last(plugins[pl].free);
        assert ButLast(q[..n]) == q[..n - 1];
        plugins := plugins[pl := plugins[pl].(free := ButLast(plugins[pl].free))];
        WithoutOneMore(old(pctxs), q, n - 1);
        pctxs := pctxs - {p};
        freed := freed + [p];
        n := n - 1;
      }
      assert q[0..] == q && q[..0] == [];
      forall i: nat | i < |q|
        ensures Reverse(q)[i] == q[|q| - 1 - i]
      {
        ReverseAt(q, i);
      }
    }

    method FreePlugin(pl: Ref)
      requires pl in plugins
      requires FreeLinked(plugins[pl].free)
      modifies this
      ensures View() == Lifecycle.FreePlugin(old(View()), pl)
    {
      if plugins[pl].occupied != [] {
        // some plugin contexts are using it
        return;
      }
      CallGuest(pl, Unloaded);
      FreeSpareContexts(pl);
      plugins := plugins - {pl};
      freed := freed + [pl];
    }

    method UnloadPlugin(pl: Ref)
      requires pl in plugins
      requires FreeLinked(plugins[pl].free)
      modifies this
      ensures View() == Lifecycle.Unload(old(View()), pl)
    {
      plugins := plugins[pl := plugins[pl].(done := true)];
      pluginHandles := pluginHandles - {pl};
      FreePlugin(pl);
    }

    // ----------------------------------------------------------------------------------
    // Plugin contexts

    /** ngx_destroy_pool, with the reset of the two child queues. */
    method DestroyPool(p: Ref)
      requires p in pctxs && pctxs[p].pool.Some?
      modifies this`pools, this`freed, this`hctxs, this`pctxs
      ensures View() == Lifecycle.DestroyPool(old(View()), p)
    {
      var pool := pctxs[p].pool.value;
      pools := pools - {pool};
      freed := freed + [pool];
      hctxs := map h | h in hctxs && hctxs[h].pool != pool :: hctxs[h];
      pctxs := pctxs[p := pctxs[p].(pool := None, occupied := [], free := [])];
    }

    /** The queue move, and the calls of proxy_on_done and proxy_on_delete. */
    method LetGoCtx(p: Ref)
      requires OwnedCtx(View(), p)
      modifies this`plugins, this`busy, this`calls
      ensures View() == LetGo(old(View()), p)
    {
      var id := pctxs[p].id;
      var pl := pctxs[p].plugin;
      plugins := plugins[pl := plugins[pl].(occupied := Remove(plugins[pl].occupied, p),
                                            free := InsertHead(plugins[pl].free, p))];
      busy := busy - {p};
      CallGuest(pl, OnDone(id));
      CallGuest(pl, OnDelete(id));
    }

    method FreePluginCtx(p: Ref)
      requires CtxLinked(View(), p)
      modifies this
      ensures View() == Lifecycle.FreeCtx(old(View()), p)
    {
      hide Lifecycle.DestroyPool, Lifecycle.FreePlugin, RetireCtx, LetGo;
      ghost var w := View();
      var pl := pctxs[p].plugin;
      if pctxs[p].occupied != [] {
        // some HTTP contexts are using it
        return;
      }
      LetGoThenDestroyed(w, p);
      RetiredIsLinked(w, p);
      LetGoCtx(p);
      if pctxs[p].pool.Some? {
        DestroyPool(p);
      }
      if plugins[pl].done {
        FreePlugin(pl);
      }
    }

    method DeletePluginCtx(p: Ref)
      requires CtxLinked(View(), p)
      modifies this
      ensures View() == Lifecycle.DeleteCtx(old(View()), p)
    {
      pctxs := pctxs[p := pctxs[p].(done := true)];
      ctxHandles := ctxHandles - {p};
      FreePluginCtx(p);
    }

    /** A recycled context leaves the end of the free queue. */
    method RecycleCtx(pl: Ref) returns (p: Ref)
      requires Spare(View(), pl)
      modifies this
      ensures p == Last(old(plugins)[pl].free) && View() == Picked(old(View()), pl)
    {
      p := Last(plugins[pl].free);
      plugins := plugins[pl := plugins[pl].(free := ButLast(plugins[pl].free))];
      pctxs := pctxs[p := pctxs[p].(done := false)];
    }

    /** cur_ctx_id++, for the record x. */
    method NewId(pl: Ref, ghost x: Record) returns (id: nat)
      requires pl in plugins
      modifies this`plugins, this`minted, this`wrapped
      ensures id == NextId(old(plugins)[pl].curCtxId)
      ensures View() == Numbered(old(View()), pl, x)
    {
      id := NextId(plugins[pl].curCtxId);
      plugins := plugins[pl := plugins[pl].(curCtxId := id)];
      minted := minted[(pl, id) := x];
      wrapped := if id == 0 then wrapped + {pl} else wrapped;
    }

    /** A new context with a new id, in no queue yet. */
    method MintCtx(pl: Ref) returns (p: Ref)
      requires pl in plugins
      modifies this`next, this`plugins, this`pctxs, this`minted, this`wrapped
      ensures p == old(next) && View() == Minted(old(View()), pl)
    {
      hide NextId;
      p := next;
      var id := NewId(pl, CtxRecord(p));
      next := next + 1;
      pctxs := pctxs[p := PluginCtx(id, pl, None, [], [], false, None)];
    }

    /** A context that was refused becomes free again, so that its id is used again. */
    method PutBack(pl: Ref, p: Ref)
      requires pl in plugins
      modifies this`plugins
      ensures View() == FreedAgain(old(View()), pl, p)
    {
      plugins := plugins[pl := plugins[pl].(free := InsertHead(plugins[pl].free, p))];
    }

    /** A context that was accepted becomes occupied. */
    method PutToUse(pl: Ref, p: Ref)
      requires pl in plugins
      modifies this`plugins, this`busy, this`ctxHandles
      ensures View() == Occupying(old(View()), pl, p)
    {
      plugins := plugins[pl := plugins[pl].(occupied := InsertHead(plugins[pl].occupied, p))];
      busy := busy + {p};
      ctxHandles := ctxHandles + {p};
    }

    /** ngx_create_pool. */
    method CreatePool(p: Ref)
      requires p in pctxs
      modifies this`pctxs, this`pools, this`next
      ensures View() == WithPool(old(View()), p)
    {
      pctxs := pctxs[p := pctxs[p].(pool := Some(next))];
      pools := pools[next := p];
      next := next + 1;
    }

    /** The part of ngx_http_wasm_on_configure that ends with the creation of the pool. */
    method CreatePluginCtx(pl: Ref, o: ConfigureAnswers) returns (r: Option<Ref>)
      requires pl in plugins
      requires forall p :: p in plugins[pl].free ==> p in pctxs && pctxs[p].plugin == pl
      modifies this
      ensures var w1 := TakeCtx(old(View()), pl);
        && Spare(w1, pl)
        && (o.createRc != NGX_OK ==> r.None? && View() == RotateCtx(AnnounceCtx(w1, pl, false), pl))
        && (o.createRc == NGX_OK ==>
              r == Some(Last(w1.plugins[pl].free)) && View() == ActivateCtx(AnnounceCtx(w1, pl, true), pl, o.poolOk))
    {
      hide TakeCtx, Picked, Minted, AnnounceCtx, RotateCtx, ActivateCtx, FreedAgain, Occupying, WithPool, Emit;
      ghost var w1 := TakeCtx(View(), pl);
      var p: Ref;
      TakeCtxCases(View(), pl);
      if plugins[pl].free != [] {
        p := RecycleCtx(pl);
      } else {
        p := MintCtx(pl);
      }
      ghost var w2 := AnnounceCtx(w1, pl, o.createRc == NGX_OK);
      PickedIsAnnounced(w1, pl, o.createRc == NGX_OK);
      assert View() == Picked(w1, pl) && p in pctxs && pctxs[p].id == w1.pctxs[p].id;
      curState := Some(OfPlugin(pl));
      CallGuest(pl, ContextCreate(pctxs[p].id, 0, o.createRc == NGX_OK));
      assert View() == Picked(w2, pl);
      PickedThenFreed(w2, pl);
      PickedThenOccupied(w2, pl);
      OccupiedThenPooled(w2, pl);
      if o.createRc != NGX_OK {
        PutBack(pl, p);
        return None;
      }
      PutToUse(pl, p);
      if o.poolOk {
        CreatePool(p);
      }
      return Some(p);
    }

    /** The call of proxy_on_configure. */
    method CallOnConfigure(p: Ref, garbage: Option<Bytes>)
      requires OwnedCtx(View(), p)
      modifies this`pctxs, this`curState, this`calls
      ensures View() == Lifecycle.Configuring(old(View()), p, garbage)
    {
      var pl := pctxs[p].plugin;
      var id := pctxs[p].id;
      pctxs := pctxs[p := pctxs[p].(body := garbage)];
      curState := Some(OfCtx(pl, p));
      CallGuest(pl, OnConfigure(id));
      LeaveState();
    }

    method FinishConfigure(p: Ref, o: ConfigureAnswers) returns (ok: bool)
      requires CtxLinked(View(), p)
      modifies this
      ensures View() == Lifecycle.Configured(old(View()), p, o)
      ensures ok == (o.poolOk && o.stateOk && o.configureRc > 0)
    {
      hide FreeCtx;
      if !o.poolOk || !o.stateOk {
        DeletePluginCtx(p);
        return false;
      }
      CallOnConfigure(p, o.garbage);
      if o.configureRc <= 0 {
        DeletePluginCtx(p);
        return false;
      }
      return true;
    }

    method OnConfigurePlugin(pl: Ref, o: ConfigureAnswers) returns (ctx: Option<Ref>)
      requires Inv(View()) && pl in pluginHandles
      modifies this
      ensures View() == Runs.Configuration(old(View()), pl, o)
      ensures ctx.Some? <==> (old(plugins)[pl].free != [] || o.recordOk) && o.createRc == NGX_OK
                             && o.poolOk && o.stateOk && o.configureRc > 0
      ensures ctx.Some? ==>
                ctx.value == if old(plugins)[pl].free != [] then Last(old(plugins)[pl].free) else old(next)
    {
      hide Inv, TakeCtx, Configured, AnnounceCtx, RotateCtx, ActivateCtx;
      ghost var w := View();
      HandleConfigures(w, pl);
      if plugins[pl].free == [] && !o.recordOk {
        return None;
      }
      AcceptedIsLinked(w, pl, o.poolOk);
      var created := CreatePluginCtx(pl, o);
      if created.None? {
        return None;
      }
      var ok := FinishConfigure(created.value, o);
      return if ok then created else None;
    }

    // ----------------------------------------------------------------------------------
    // HTTP contexts

    method MintHttp(p: Ref) returns (h: Ref)
      requires CanServe(View(), p)
      modifies this`nextHttp, this`plugins, this`hctxs, this`minted, this`wrapped
      ensures h == old(nextHttp) && View() == MintedHttp(old(View()), p)
    {
      hide NextId;
      h := nextHttp;
      var id := NewId(pctxs[p].plugin, HttpRecord(h));
      nextHttp := nextHttp + 1;
      hctxs := hctxs[h := HttpCtx(id, p, pctxs[p].pool.value)];
    }

    method RecycleHttp(p: Ref) returns (h: Ref)
      requires SpareHttp(View(), p)
      modifies this`pctxs
      ensures h == Last(old(pctxs)[p].free) && View() == PickedHttp(old(View()), p)
    {
      h := Last(pctxs[p].free);
      pctxs := pctxs[p := pctxs[p].(free := ButLast(pctxs[p].free))];
    }

    method PutBackHttp(p: Ref, h: Ref)
      requires p in pctxs
      modifies this`pctxs
      ensures View() == FreedHttp(old(View()), p, h)
    {
      pctxs := pctxs[p := pctxs[p].(free := InsertHead(pctxs[p].free, h))];
    }

    /** The context becomes occupied and is pushed on the array of the request. */
    method PutToUseHttp(p: Ref, h: Ref, r: ReqId)
      requires p in pctxs && r in requests
      modifies this`pctxs, this`requests, this`busyHttp, this`holder
      ensures View() == OccupyingHttp(old(View()), p, h, r)
    {
      pctxs := pctxs[p := pctxs[p].(occupied := InsertHead(pctxs[p].occupied, h))];
      requests := requests[r := requests[r] + [h]];
      busyHttp := busyHttp + {h};
      holder := holder[h := r];
    }

    /** ngx_http_wasm_create_http_ctx, with the array push that follows it on success. */
    method CreateHttpCtx(p: Ref, r: ReqId, o: FetchAnswers) returns (ctx: Option<Ref>)
      requires CanServe(View(), p) && r in requests
      modifies this
      ensures View() == Lifecycle.CreateHttp(old(View()), p, r, o)
      ensures ctx.Some? <==> (old(pctxs)[p].free != [] || o.recordOk) && o.createRc == NGX_OK
      ensures ctx.Some? ==> ctx.value == Last(TakeHttp(old(View()), p).pctxs[p].free)
    {
      hide TakeHttp, PickedHttp, MintedHttp, AnnounceHttp, RotateHttp, ActivateHttp, FreedHttp, OccupyingHttp, Emit;
      if pctxs[p].free == [] && !o.recordOk {
        return None;
      }
      ghost var w1 := TakeHttp(View(), p);
      TakeHttpCases(View(), p);
      var pl, parent := pctxs[p].plugin, pctxs[p].id;
      var h: Ref;
      if pctxs[p].free != [] {
        h := RecycleHttp(p);
      } else {
        h := MintHttp(p);
      }
      ghost var w2 := AnnounceHttp(w1, p, o.createRc == NGX_OK);
      PickedHttpIsAnnounced(w1, p, o.createRc == NGX_OK);
      TakeHttpKeepsName(old(View()), p, r);
      CallGuest(pl, ContextCreate(hctxs[h].id, parent, o.createRc == NGX_OK));
      assert View() == PickedHttp(w2, p);
      PickedThenFreedHttp(w2, p);
      if o.createRc != NGX_OK {
        // reuse the id
        PutBackHttp(p, h);
        return None;
      }
      PickedThenOccupiedHttp(w2, p, r);
      PutToUseHttp(p, h, r);
      return Some(h);
    }

    /** The search for the entry of a plugin context in a request's array. */
    method SearchEntry(r: ReqId, p: Ref) returns (ctx: Option<Ref>)
      requires r in requests && forall h :: h in requests[r] ==> h in hctxs
      ensures ctx == Entry(View(), r, p)
    {
      var i := 0;
      while i < |requests[r]|
        invariant i <= |requests[r]|
        invariant forall j :: 0 <= j < i ==> hctxs[requests[r][j]].parent != p
      {
        FindEntryFrom(hctxs, requests[r], p, i);
        if hctxs[requests[r][i]].parent == p {
          return Some(requests[r][i]);
        }
        i := i + 1;
      }
      FindEntryFrom(hctxs, requests[r], p, i);
      return None;
    }

    method FetchHttpCtx(p: Ref, r: ReqId, o: FetchAnswers) returns (ctx: Option<Ref>)
      requires Fetchable(View(), p, r)
      modifies this
      ensures View() == Lifecycle.Fetch(old(View()), p, r, o)
      ensures ctx == Entry(View(), r, p)
    {
      hide CreateHttp, FindEntry;
      if r !in touched && !o.moduleCtxOk {
        return None;
      }
      touched := touched + {r};
      if r !in requests {
        if !o.arrayOk {
          return None;
        }
        requests := requests[r := []];
        EmptyArray(View(), p, r);
      }
      ctx := SearchEntry(r, p);
      if ctx.None? {
        CreatedIsFound(View(), p, r, o);
        ctx := CreateHttpCtx(p, r, o);
      }
    }

    /** The start of an entry that serves a request. */
    method EnterState(p: Ref, body: Option<Bytes>)
      requires CanServe(View(), p)
      modifies this`pctxs, this`curState
      ensures View() == Arrive(old(View()), p, body)
    {
      if body.Some? {
        pctxs := pctxs[p := pctxs[p].(body := body)];
      }
      curState := Some(OfCtx(pctxs[p].plugin, p));
    }

    /** ngx_http_wasm_on_http up to the decision about the result: `ran` is false for NGX_DECLINED. */
    method OnHttpRequest(p: Ref, r: ReqId, body: Option<Bytes>, o: FetchAnswers) returns (ran: bool)
      requires Inv(View()) && p in ctxHandles
      modifies this
      ensures View() == Service(old(View()), p, r, body, o)
      ensures ran == RunsStream(old(View()), p, r, body, o)
    {
      hide Inv, Fetch, Fetchable;
      ghost var w := View();
      HandleServes(w, p);
      HandleFetches(w, p, r);
      ArriveFetches(w, p, r, body);
      var pl := pctxs[p].plugin;
      EnterState(p, body);
      var ctx := FetchHttpCtx(p, r, o);
      if ctx.None? {
        LeaveState();
        return false;
      }
      CallGuest(pl, OnStream(hctxs[ctx.value].id, body));
      LeaveState();
      return true;
    }

    /** ngx_http_wasm_on_http_call_resp up to the decision about the result. */
    method OnCallResponse(p: Ref, r: ReqId, o: FetchAnswers) returns (ran: bool)
      requires Inv(View()) && p in ctxHandles
      modifies this
      ensures View() == CallResponse(old(View()), p, r, o)
      ensures ran == RunsCallResponse(old(View()), p, r, o)
    {
      hide Inv, Fetch, Fetchable;
      ghost var w := View();
      HandleServes(w, p);
      HandleFetches(w, p, r);
      ArriveFetches(w, p, r, None);
      var pl, id := pctxs[p].plugin, pctxs[p].id;
      EnterState(p, None);
      var ctx := FetchHttpCtx(p, r, o);
      if ctx.None? {
        LeaveState();
        return false;
      }
      CallGuest(pl, OnHttpCallResponse(id));
      LeaveState();
      return true;
    }

    // ----------------------------------------------------------------------------------
    // The end of a request

    /** One HTTP context leaves the occupied queue and is deleted in the guest. */
    method ReleaseHttp(h: Ref)
      requires h in hctxs && OwnedCtx(View(), hctxs[h].parent)
      modifies this`pctxs, this`busyHttp, this`calls
      ensures View() == Released(old(View()), h)
    {
      var p := hctxs[h].parent;
      var pl, id := pctxs[p].plugin, hctxs[h].id;
      ghost var w := View();
      pctxs := pctxs[p := pctxs[p].(occupied := Remove(pctxs[p].occupied, h), free := InsertHead(pctxs[p].free, h))];
      busyHttp := busyHttp - {h};
      CallGuest(pl, OnDone(id));
      CallGuest(pl, OnDelete(id));
    }

    /** The body of the cleanup loop for one HTTP context. */
    method FinishHttp(h: Ref)
      requires h in hctxs && OwnedCtx(View(), hctxs[h].parent)
      requires CtxLinked(Released(View(), h), hctxs[h].parent)
      modifies this
      ensures View() == Turned(old(View()), h)
    {
      hide Released, CtxLinked, FreeCtx;
      var p := hctxs[h].parent;
      ReleasedFrame(View(), h);
      ReleaseHttp(h);
      if pctxs[p].done {
        FreePluginCtx(p);
      }
    }

    /** ngx_http_wasm_cleanup: walks the array of a request while contexts, and with the last of
        them a plugin context and even its plugin, are freed under way. */
    method CleanupRequest(r: ReqId)
      requires Inv(View()) && r in touched
      modifies this
      ensures View() == Cleanup(old(View()), r)
    {
      hide Inv, CleanupOne, Turned, Released, CtxLinked;
      ghost var w0 := View();
      if r in requests {
        var a := requests[r];
        var i := 0;
        CutWhole(w0, r);
        while i < |a|
          invariant i <= |a| && r in touched && r in requests && requests[r] == a
          invariant Inv(Cut(View(), r, i))
          invariant Cleanup(Cut(View(), r, i), r) == Cleanup(w0, r)
        {
          ghost var w := View();
          CleanupTurnIsSafe(w, r, i);
          CleanupTurn(w, r, i);
          FinishHttp(a[i]);
          i := i + 1;
        }
        ForgetCut(View(), r);
      }
      touched := touched - {r};
      requests := requests - {r};
    }

    // ----------------------------------------------------------------------------------
    // Runs

    /** The finalizer of a plugin handle. */
    method FinalizePlugin(pl: Ref)
      requires Inv(View()) && pl in pluginHandles
      modifies this
      ensures View() == Runs.PluginFinalizer(old(View()), pl)
    {
      hide Needed, Obeyed, Quiet, Unload;
      PluginQueuesLinked(View(), pl);
      UnloadPlugin(pl);
    }

    /** The finalizer of a plugin context handle. */
    method FinalizeCtx(p: Ref)
      requires Inv(View()) && p in ctxHandles
      modifies this
      ensures View() == Runs.CtxFinalizer(old(View()), p)
    {
      hide Structure, Needed, Obeyed, Quiet, DeleteCtx;
      HandleServes(View(), p);
      BusyIsLinked(View(), p);
      DeletePluginCtx(p);
    }

    method Take(s: Step)
      requires Inv(View()) && Enabled(View(), s)
      modifies this
      ensures Inv(View()) && View() == Next(old(View()), s)
    {
      hide Inv, Configuration, Service, CallResponse, CtxFinalizer, PluginFinalizer, Cleanup, Load;
      ghost var w' := Next(View(), s);
      match s {
        case LoadPlugin(o) => var _ := LoadPlugin(o);
        case ConfigurePlugin(pl, o) => var _ := OnConfigurePlugin(pl, o);
        case Serve(p, r, body, o) => var _ := OnHttpRequest(p, r, body, o);
        case ServeCallResponse(p, r, o) => var _ := OnCallResponse(p, r, o);
        case EndRequest(r) => CleanupRequest(r);
        case FinalizeCtx(p) => FinalizeCtx(p);
        case FinalizePlugin(pl) => FinalizePlugin(pl);
      }
    }
  }

  lemma PluginQueuesLinked(w: World, pl: Ref)
    requires Inv(w) && pl in w.pluginHandles
    ensures pl in w.plugins && NoDup(w.plugins[pl].free) && forall p :: p in w.plugins[pl].free ==> p in w.pctxs
  {
    hide Needed, Obeyed, Quiet;
  }

  lemma LegalPrefix(ss: seq<Step>, i: nat)
    requires Legal(ss) && i <= |ss|
    ensures Legal(ss[..i])
    decreases |ss|
  {
    hide Inv, Next, Enabled;
    if i == |ss| {
      assert ss[..i] == ss;
    } else {
      LegalPrefix(ss[..|ss| - 1], i);
      assert ss[..|ss| - 1][..i] == ss[..i];
    }
  }

  /** Whatever a worker is made to do, its records end up as the run says. */
  method RunWorker(ss: seq<Step>) returns (m: Module)
    requires Legal(ss)
    ensures m.View() == Run(ss)
  {
    hide Inv, Next, Enabled;
    m := new Module();
    assert ss[..0] == [];
    EmptyInv();
    for i := 0 to |ss|
      invariant Legal(ss[..i]) && m.View() == Run(ss[..i])
      invariant fresh(m)
    {
      LegalPrefix(ss, i + 1);
      assert ss[..i + 1][..i] == ss[..i];
      m.Take(ss[i]);
    }
    assert ss[..|ss|] == ss;
  }
}
