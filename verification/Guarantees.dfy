/** What the module guarantees at the end of every legal run. */
module Guarantees {
  import opened Common
  import opened Queues
  import opened Abi
  import opened History
  import opened Lifecycle
  import opened Invariant
  import opened Minting
  import opened Runs

  // ------------------------------------------------------------------------------------
  // Pointers and memory

  /** Every pointer that is kept anywhere leads to a record that has not been freed. */
  ghost predicate PointersLive(w: World) {
    && (forall pl | pl in w.pluginHandles :: pl in w.plugins)
    && (forall p | p in w.ctxHandles :: p in w.pctxs && w.pctxs[p].pool.Some? && w.pctxs[p].pool.value in w.pools)
    && (forall r, h | r in w.requests && h in w.requests[r] ::
          h in w.hctxs && w.hctxs[h].parent in w.pctxs && w.pctxs[w.hctxs[h].parent].plugin in w.plugins)
    && (forall pl, p | pl in w.plugins && (p in w.plugins[pl].occupied || p in w.plugins[pl].free) ::
          p in w.pctxs && w.pctxs[p].plugin == pl)
    && (forall p, h | p in w.pctxs && (h in w.pctxs[p].occupied || h in w.pctxs[p].free) ::
          h in w.hctxs && w.hctxs[h].parent == p && w.hctxs[h].pool in w.pools)
  }

  lemma NoDanglingPointer(ss: seq<Step>)
    requires Legal(ss)
    ensures PointersLive(Run(ss))
  {
    InvPointersLive(Run(ss));
  }

  lemma InvPointersLive(w: World)
    requires Structure(w) && QuietPools(w)
    ensures PointersLive(w)
  {
    hide Ids, Counters, Addresses;
    PluginPointers(w);
    ChildPointers(w);
  }

  lemma PluginPointers(w: World)
    requires Structure(w) && QuietPools(w)
    ensures forall pl | pl in w.pluginHandles :: pl in w.plugins
    ensures forall p | p in w.ctxHandles :: p in w.pctxs && w.pctxs[p].pool.Some? && w.pctxs[p].pool.value in w.pools
    ensures forall pl, p | pl in w.plugins && (p in w.plugins[pl].occupied || p in w.plugins[pl].free) ::
              p in w.pctxs && w.pctxs[p].plugin == pl
  {
    hide ChildQueues, Requests, Ids, Counters, Addresses;
  }

  lemma ChildPointers(w: World)
    requires Structure(w)
    ensures forall r, h | r in w.requests && h in w.requests[r] ::
              h in w.hctxs && w.hctxs[h].parent in w.pctxs && w.pctxs[w.hctxs[h].parent].plugin in w.plugins
    ensures forall p, h | p in w.pctxs && (h in w.pctxs[p].occupied || h in w.pctxs[p].free) ::
              h in w.hctxs && w.hctxs[h].parent == p && w.hctxs[h].pool in w.pools
  {
    hide Handles, Ids, Counters, Addresses;
  }

  ghost predicate QuietPools(w: World) {
    forall p | p in w.busy && p in w.pctxs :: w.pctxs[p].pool.Some?
  }

  /** Each HTTP context in use is in the array of exactly one request, and each request has at
      most one HTTP context under a plugin context. */
  lemma OneHolder(ss: seq<Step>)
    requires Legal(ss)
    ensures var w := Run(ss);
      && (forall p, h | p in w.pctxs && h in w.pctxs[p].occupied ::
            exists r :: r in w.requests && h in w.requests[r])
      && (forall r, s, h | r in w.requests && s in w.requests && h in w.requests[r] && h in w.requests[s] :: r == s)
      && (forall r | r in w.requests :: NoDup(w.requests[r]) && OnePerCtx(w.hctxs, w.requests[r]))
  {
    var w := Run(ss);
    HeldOnce(w.touched, w.requests, w.holder, w.hctxs, w.busyHttp);
    InUseIsBusy(w.pctxs, w.hctxs, w.busyHttp);
  }

  lemma InUseIsBusy(pctxs: map<Ref, PluginCtx>, hctxs: map<Ref, HttpCtx>, busyHttp: set<Ref>)
    requires ChildQueues(pctxs, hctxs, busyHttp)
    ensures forall p, h | p in pctxs && h in pctxs[p].occupied :: h in busyHttp
  {
  }

  lemma HeldOnce(touched: set<ReqId>, requests: map<ReqId, seq<Ref>>, holder: map<Ref, ReqId>,
                 hctxs: map<Ref, HttpCtx>, busyHttp: set<Ref>)
    requires Requests(touched, requests, holder, hctxs, busyHttp)
    ensures forall h | h in busyHttp :: exists r :: r in requests && h in requests[r]
    ensures forall r, s, h | r in requests && s in requests && h in requests[r] && h in requests[s] :: r == s
    ensures forall r | r in requests :: NoDup(requests[r])
  {
    forall r, i, j | r in requests && 0 <= i < j < |requests[r]|
      ensures requests[r][i] != requests[r][j]
    {
      assert requests[r][i] in requests[r] && requests[r][j] in requests[r];
    }
    forall r, s, h | r in requests && s in requests && h in requests[r] && h in requests[s]
      ensures r == s
    {
      assert holder[h] == r;
      assert holder[h] == s;
    }
  }

  /** Nothing is freed twice, and nothing that was freed is still in use. */
  lemma NoDoubleFree(ss: seq<Step>)
    requires Legal(ss)
    ensures var w := Run(ss);
      && (forall i, j :: 0 <= i < j < |w.freed| ==> w.freed[i] != w.freed[j])
      && (forall x :: x in w.freed ==> x !in w.plugins && x !in w.pctxs && x !in w.pools)
  {
  }

  lemma NothingInUse(w: World)
    requires Structure(w) && Needed(w, {})
    requires w.pluginHandles == {} && w.ctxHandles == {} && w.touched == {}
    ensures w.busyHttp == {} && w.busy == {} && w.plugins == map[]
  {
    assert w.busyHttp == {};
    forall p | p in w.pctxs
      ensures w.pctxs[p].occupied == []
    {
      MemberOrEmpty(w.pctxs[p].occupied);
    }
    assert w.busy == {};
    forall pl | pl in w.plugins
      ensures w.plugins[pl].occupied == []
    {
      MemberOrEmpty(w.plugins[pl].occupied);
    }
  }

  /** Once every handle is finalized and every request is over, in whatever order that happened,
      everything that was ever allocated has been freed exactly once. */
  lemma NoLeak(ss: seq<Step>)
    requires Legal(ss)
    requires Run(ss).pluginHandles == {} && Run(ss).ctxHandles == {} && Run(ss).touched == {}
    ensures var w := Run(ss);
      && w.plugins == map[] && w.pctxs == map[] && w.hctxs == map[] && w.pools == map[]
      && NoDup(w.freed) && forall x: Ref :: x < w.next <==> x in w.freed
  {
    NothingInUse(Run(ss));
  }

  // ------------------------------------------------------------------------------------
  // Ids

  /** While a plugin has minted fewer than 2^32 ids, its contexts of both kinds carry pairwise
      different, positive ids. */
  lemma IdsAreDistinct(ss: seq<Step>, pl: Ref)
    requires Legal(ss) && MintCount(ss, pl) < UINT32
    ensures var w := Run(ss);
      && (forall p | p in w.pctxs && w.pctxs[p].plugin == pl ::
            pl in w.plugins && 1 <= w.pctxs[p].id <= w.plugins[pl].curCtxId)
      && (forall h | h in w.hctxs && HttpOf(w, h, pl) ::
            pl in w.plugins && 1 <= w.hctxs[h].id <= w.plugins[pl].curCtxId)
      && (forall p, q | p in w.pctxs && q in w.pctxs && p != q && w.pctxs[p].plugin == pl && w.pctxs[q].plugin == pl ::
            w.pctxs[p].id != w.pctxs[q].id)
      && (forall h, p | h in w.hctxs && p in w.pctxs && HttpOf(w, h, pl) && w.pctxs[p].plugin == pl ::
            w.hctxs[h].id != w.pctxs[p].id)
      && (forall h, g | h in w.hctxs && g in w.hctxs && h != g && HttpOf(w, h, pl) && HttpOf(w, g, pl) ::
            w.hctxs[h].id != w.hctxs[g].id)
  {
    hide Next, MintCount;
    RunCounts(ss, pl);
    DistinctById(Run(ss), pl);
  }

  ghost predicate HttpOf(w: World, h: Ref, pl: Ref)
    requires h in w.hctxs
  {
    w.hctxs[h].parent in w.pctxs && w.pctxs[w.hctxs[h].parent].plugin == pl
  }

  lemma DistinctById(w: World, pl: Ref)
    requires Ids(w.plugins, w.pctxs, w.hctxs, w.minted, w.wrapped) && pl !in w.wrapped
    ensures forall p | p in w.pctxs && w.pctxs[p].plugin == pl ::
              pl in w.plugins && 1 <= w.pctxs[p].id <= w.plugins[pl].curCtxId
    ensures forall h | h in w.hctxs && HttpOf(w, h, pl) ::
              pl in w.plugins && 1 <= w.hctxs[h].id <= w.plugins[pl].curCtxId
    ensures forall p, q | p in w.pctxs && q in w.pctxs && p != q
                          && w.pctxs[p].plugin == pl && w.pctxs[q].plugin == pl ::
              w.pctxs[p].id != w.pctxs[q].id
    ensures forall h, p | h in w.hctxs && p in w.pctxs && HttpOf(w, h, pl) && w.pctxs[p].plugin == pl ::
              w.hctxs[h].id != w.pctxs[p].id
    ensures forall h, g | h in w.hctxs && g in w.hctxs && h != g && HttpOf(w, h, pl) && HttpOf(w, g, pl) ::
              w.hctxs[h].id != w.hctxs[g].id
  {
    forall p, q | p in w.pctxs && q in w.pctxs && p != q && w.pctxs[p].plugin == pl && w.pctxs[q].plugin == pl
      ensures w.pctxs[p].id != w.pctxs[q].id
    {
      assert Issued(w.plugins, w.minted, pl, w.pctxs[p].id, CtxRecord(p));
      assert Issued(w.plugins, w.minted, pl, w.pctxs[q].id, CtxRecord(q));
    }
  }

  // ------------------------------------------------------------------------------------
  // The guests' histories

  /** A guest has received a history that the ABI allows, from its first call to its last, exactly
      when its plugin has minted fewer than 2^32 ids. */
  lemma GuestSeesLegalHistory(ss: seq<Step>, pl: Ref)
    requires Legal(ss)
    ensures Replay(CallsTo(Run(ss).calls, pl)).Some? <==> MintCount(ss, pl) < UINT32
    ensures MintCount(ss, pl) < UINT32 ==>
              forall n: nat :: n <= |CallsTo(Run(ss).calls, pl)| ==> Replay(CallsTo(Run(ss).calls, pl)[..n]).Some?
  {
    hide Next, MintCount, CallsTo, SaneCalls, Structure, Needed, Quiet, Matches;
    var w := Run(ss);
    RunCounts(ss, pl);
    if pl !in w.wrapped {
      CallsToAccepted(Sane(w), pl);
      CallsToSane(w.calls, w.wrapped, pl);
      forall n: nat | n <= |CallsTo(w.calls, pl)|
        ensures Replay(CallsTo(w.calls, pl)[..n]).Some?
      {
        ReplayPrefix(CallsTo(w.calls, pl), n);
      }
    } else {
      ZeroWasAnnounced(w.calls, pl);
    }
  }

  /** The same without the acceptor: each call that a guest receives is allowed by those it received
      before, exactly when its plugin has minted fewer than 2^32 ids. */
  lemma GuestReceivesAllowedCalls(ss: seq<Step>, pl: Ref)
    requires Legal(ss)
    ensures (forall k :: 0 <= k < |CallsTo(Run(ss).calls, pl)| ==>
               Allowed(CallsTo(Run(ss).calls, pl)[..k], pl, CallsTo(Run(ss).calls, pl)[k].what))
       <==> MintCount(ss, pl) < 0x1_0000_0000
  {
    hide Inv, Next, MintCount, CallsTo, Replay, Allowed;
    GuestSeesLegalHistory(ss, pl);
    AcceptedExactlyWhen(CallsTo(Run(ss).calls, pl));
    CallsAreTo(Run(ss).calls, pl);
  }

  lemma {:induction false} CallsAreTo(calls: seq<Call>, pl: Ref)
    ensures forall c :: c in CallsTo(calls, pl) ==> c.plugin == pl
  {
    if calls != [] {
      CallsAreTo(calls[..|calls| - 1], pl);
    }
  }

  lemma ZeroWasAnnounced(calls: seq<Call>, pl: Ref)
    requires Announced(calls, 0, pl, 0)
    ensures Replay(CallsTo(calls, pl)).None? && Replay(calls).None?
  {
    var i :| 0 <= i < |calls| && calls[i].plugin == pl && calls[i].what.ContextCreate? && calls[i].what.id == 0;
    InCallsTo(calls, calls[i]);
    ZeroIsRefused(CallsTo(calls, pl), calls[i]);
    ZeroIsRefused(calls, calls[i]);
  }

  /** All guests together have been called as the ABI allows exactly when no plugin has minted 2^32
      ids. */
  lemma GuestsSeeLegalHistories(ss: seq<Step>)
    requires Legal(ss)
    ensures Replay(Run(ss).calls).Some? <==> forall pl :: MintCount(ss, pl) < UINT32
  {
    hide Next, MintCount, SaneCalls, Structure, Needed, Quiet, Matches;
    var w := Run(ss);
    forall pl
      ensures pl in w.wrapped <==> MintCount(ss, pl) >= UINT32
      ensures pl in w.wrapped ==> Replay(w.calls).None?
    {
      RunCounts(ss, pl);
      if pl in w.wrapped {
        ZeroWasAnnounced(w.calls, pl);
      }
    }
    if w.wrapped == {} {
      SaneWithNone(w.calls);
    } else {
      var pl :| pl in w.wrapped;
      assert MintCount(ss, pl) >= UINT32;
    }
  }

  /** How often a context was created with success, told it is done, and deleted. */
  function Count(calls: seq<Call>, f: Call -> bool): nat {
    if calls == [] then 0
    else Count(calls[..|calls| - 1], f) + if f(calls[|calls| - 1]) then 1 else 0
  }

  function Creates(pl: Ref, id: nat): Call -> bool {
    (c: Call) => c.plugin == pl && c.what.ContextCreate? && c.what.id == id && c.what.ok
  }

  function Dones(pl: Ref, id: nat): Call -> bool {
    (c: Call) => c.plugin == pl && c.what == OnDone(id)
  }

  function Deletes(pl: Ref, id: nat): Call -> bool {
    (c: Call) => c.plugin == pl && c.what == OnDelete(id)
  }

  function Loads(pl: Ref): Call -> bool {
    (c: Call) => c.plugin == pl && c.what.Loaded?
  }

  function Unloads(pl: Ref): Call -> bool {
    (c: Call) => c.plugin == pl && c.what.Unloaded?
  }

  /** In an accepted history each successful create is answered by one done and one delete,
      except that a context that is alive has one create more. */
  lemma {:induction false} CreatesAreDeletedOnce(calls: seq<Call>, pl: Ref, id: nat)
    requires Replay(calls).Some?
    ensures var live := Replay(calls).value.live;
      && Count(calls, Creates(pl, id)) == Count(calls, Deletes(pl, id)) + (if (pl, id) in live then 1 else 0)
      && Count(calls, Dones(pl, id))
           == Count(calls, Deletes(pl, id)) + (if (pl, id) in live && live[(pl, id)].done then 1 else 0)
  {
    if calls != [] {
      CreatesAreDeletedOnce(calls[..|calls| - 1], pl, id);
    }
  }

  /** In an accepted history a plugin is loaded at most once and unloaded at most once. */
  lemma {:induction false} LoadedAndUnloadedOnce(calls: seq<Call>, pl: Ref)
    requires Replay(calls).Some?
    ensures var t := Replay(calls).value;
      && Count(calls, Loads(pl)) == (if pl in t.loaded || pl in t.unloaded then 1 else 0)
      && Count(calls, Unloads(pl)) == (if pl in t.unloaded then 1 else 0)
      && !(pl in t.loaded && pl in t.unloaded)
  {
    if calls != [] {
      LoadedAndUnloadedOnce(calls[..|calls| - 1], pl);
    }
  }

  /** A count that ignores the calls that are left out is not changed by leaving them out. */
  lemma {:induction false} CountSane(calls: seq<Call>, x: set<Ref>, f: Call -> bool)
    requires forall c :: f(c) ==> Kept(c, x)
    ensures Count(SaneCalls(calls, x), f) == Count(calls, f)
  {
    if calls != [] {
      var init, c := calls[..|calls| - 1], calls[|calls| - 1];
      CountSane(init, x, f);
      if Kept(c, x) {
        assert (SaneCalls(init, x) + [c])[..|SaneCalls(init, x)|] == SaneCalls(init, x);
      } else {
        assert SaneCalls(calls, x) == SaneCalls(init, x);
      }
    }
  }

  /** Once nothing is left, every plugin that was loaded has been unloaded, once. */
  lemma EveryLoadIsUnloaded(ss: seq<Step>, pl: Ref)
    requires Legal(ss)
    requires Run(ss).pluginHandles == {} && Run(ss).ctxHandles == {} && Run(ss).touched == {}
    ensures Count(Run(ss).calls, Loads(pl)) == Count(Run(ss).calls, Unloads(pl)) <= 1
  {
    hide Next, Count, SaneCalls;
    var w := Run(ss);
    NothingInUse(w);
    LoadedAndUnloadedOnce(Sane(w), pl);
    CountSane(w.calls, w.wrapped, Loads(pl));
    CountSane(w.calls, w.wrapped, Unloads(pl));
  }

  /** Once nothing is left, every context of a plugin that has minted fewer than 2^32 ids has been
      done and deleted as often as it was created. */
  lemma EveryCreateIsDeleted(ss: seq<Step>, pl: Ref, id: nat)
    requires Legal(ss) && MintCount(ss, pl) < UINT32
    requires Run(ss).pluginHandles == {} && Run(ss).ctxHandles == {} && Run(ss).touched == {}
    ensures var calls := Run(ss).calls;
      Count(calls, Creates(pl, id)) == Count(calls, Dones(pl, id)) == Count(calls, Deletes(pl, id))
  {
    hide Next, Count, SaneCalls, MintCount;
    var w := Run(ss);
    RunCounts(ss, pl);
    NothingInUse(w);
    CreatesAreDeletedOnce(Sane(w), pl, id);
    CountSane(w.calls, w.wrapped, Creates(pl, id));
    CountSane(w.calls, w.wrapped, Dones(pl, id));
    CountSane(w.calls, w.wrapped, Deletes(pl, id));
  }
}
