/**
 Recycling of records. Over every stretch of a run in which a queue's owner lives, the records that
 are taken out of its free queue are those that have come back to it, in the order in which they
 came back: what has been handed out, followed by what is left, is what was there, followed by what
 has come back. Both levels are covered, HTTP contexts under a plugin context and plugin contexts
 under a plugin.
 */
module Recycling {
  import opened Common
  import opened Queues
  import opened Abi
  import opened Lifecycle
  import opened Invariant
  import opened Preservation
  import opened PreservationHttp
  import opened Entries
  import opened EntriesHttp
  import opened Runs
  import opened StateCoherence
  import opened Dangling

  // ------------------------------------------------------------------------------------
  // The order of reuse

  /** The order in which a free queue hands out its records, if none comes back meanwhile. */
  function Drawn(q: seq<Ref>): seq<Ref> {
    if q == [] then [] else [Last(q)] + Drawn(ButLast(q))
  }

  /** A record that is freed is reused after all that were freed before it. */
  lemma {:induction false} FreedLastIsReusedLast(q: seq<Ref>, x: Ref)
    ensures Drawn(InsertHead(q, x)) == Drawn(q) + [x]
  {
    if q != [] {
      assert ButLast(InsertHead(q, x)) == InsertHead(ButLast(q), x);
      FreedLastIsReusedLast(ButLast(q), x);
    } else {
      assert Drawn([x]) == [x] + Drawn([]);
    }
  }

  /** First in, first out: `out` has left the queue at its front, and `back` has joined its end. */
  ghost predicate Fifo(out: seq<Ref>, q: seq<Ref>, q': seq<Ref>, back: seq<Ref>) {
    out + Drawn(q') == Drawn(q) + back
  }

  lemma Unchanged(q: seq<Ref>)
    ensures Fifo([], q, q, [])
  {
  }

  lemma Pushed(q: seq<Ref>, x: Ref)
    ensures Fifo([], q, InsertHead(q, x), [x])
  {
    FreedLastIsReusedLast(q, x);
  }

  lemma Popped(q: seq<Ref>)
    requires q != []
    ensures Fifo([Last(q)], q, ButLast(q), [])
  {
  }

  lemma Rotated(q: seq<Ref>)
    requires q != []
    ensures Fifo([Last(q)], q, InsertHead(ButLast(q), Last(q)), [Last(q)])
  {
    FreedLastIsReusedLast(ButLast(q), Last(q));
  }

  lemma FifoTrans(out: seq<Ref>, q: seq<Ref>, q1: seq<Ref>, back: seq<Ref>, out2: seq<Ref>, q2: seq<Ref>,
                  back2: seq<Ref>)
    requires Fifo(out, q, q1, back) && Fifo(out2, q1, q2, back2)
    ensures Fifo(out + out2, q, q2, back + back2)
  {
    assert out + out2 + Drawn(q2) == out + (out2 + Drawn(q2));
    assert Drawn(q) + (back + back2) == Drawn(q) + back + back2;
  }

  // ------------------------------------------------------------------------------------
  // What the entries do to the queues

  /** Contexts outside x and the free queues of plugins outside y are as they were. */
  ghost predicate SameSpares(w: World, w': World, x: set<Ref>, y: set<Ref>) {
    && (forall p | p in w.pctxs && p in w'.pctxs && p !in x :: w'.pctxs[p] == w.pctxs[p])
    && (forall q | q in w.plugins && q in w'.plugins && q !in y :: w'.plugins[q].free == w.plugins[q].free)
  }

  lemma RetireCtxSpares(w: World, p: Ref)
    requires OwnedCtx(w, p)
    ensures var w' := RetireCtx(w, p); var pl := w.pctxs[p].plugin;
      && SameSpares(w, w', {p}, {pl}) && w'.pctxs.Keys == w.pctxs.Keys && w'.plugins.Keys == w.plugins.Keys
      && w'.pctxs[p].pool.None? && w'.plugins[pl].free == InsertHead(w.plugins[pl].free, p)
  {
  }

  lemma FreePluginSpares(w: World, pl: Ref)
    requires pl in w.plugins
    ensures var w' := FreePlugin(w, pl);
      SameSpares(w, w', {}, {}) && w'.pctxs.Keys <= w.pctxs.Keys && w'.plugins.Keys <= w.plugins.Keys
  {
  }

  lemma FreeCtxSpares(w: World, p: Ref)
    requires OwnedCtx(w, p)
    ensures var w' := FreeCtx(w, p); var pl := w.pctxs[p].plugin;
      && SameSpares(w, w', {p}, {pl}) && w'.pctxs.Keys <= w.pctxs.Keys && w'.plugins.Keys <= w.plugins.Keys
      && (p in w'.pctxs ==> if w.pctxs[p].occupied == [] then w'.pctxs[p].pool.None? else w'.pctxs[p] == w.pctxs[p])
      && (pl in w'.plugins ==>
            w'.plugins[pl].free
            == if w.pctxs[p].occupied == [] then InsertHead(w.plugins[pl].free, p) else w.plugins[pl].free)
  {
    hide RetireCtx, FreePlugin;
    if w.pctxs[p].occupied == [] {
      RetireCtxSpares(w, p);
      var w1, pl := RetireCtx(w, p), w.pctxs[p].plugin;
      assert pl in w1.plugins.Keys && p in w1.pctxs.Keys;
      FreePluginSpares(w1, pl);
      SparesTrans(w, w1, FreeCtx(w, p), {p}, {pl});
    }
  }

  lemma SparesTrans(w: World, w1: World, w2: World, x: set<Ref>, y: set<Ref>)
    requires SameSpares(w, w1, x, y) && SameSpares(w1, w2, x, y)
    requires w2.pctxs.Keys * w.pctxs.Keys <= w1.pctxs.Keys && w2.plugins.Keys * w.plugins.Keys <= w1.plugins.Keys
    ensures SameSpares(w, w2, x, y)
  {
    forall p | p in w.pctxs && p in w2.pctxs
      ensures p in w1.pctxs
    {
      assert p in w2.pctxs.Keys * w.pctxs.Keys;
    }
    forall q | q in w.plugins && q in w2.plugins
      ensures q in w1.plugins
    {
      assert q in w2.plugins.Keys * w.plugins.Keys;
    }
  }

  lemma RetireHttpSpares(w: World, r: ReqId)
    requires HasFirst(w, r)
    ensures var w' := RetireHttp(w, r); var h := w.requests[r][0]; var p := w.hctxs[h].parent;
      && SameSpares(w, w', {p}, {}) && w'.pctxs.Keys == w.pctxs.Keys && w'.plugins == w.plugins
      && w'.pctxs[p] == w.pctxs[p].(occupied := Remove(w.pctxs[p].occupied, h), free := InsertHead(w.pctxs[p].free, h))
  {
  }

  /** One turn of the cleanup: the first HTTP context comes back to its parent, unless that goes
      with its pool; then the parent comes back to its plugin, unless that goes as well. */
  lemma CleanupOneSpares(w: World, r: ReqId)
    requires HasFirst(w, r)
    ensures var w' := CleanupOne(w, r);
      var h := w.requests[r][0]; var p := w.hctxs[h].parent; var pl := w.pctxs[p].plugin;
      && SameSpares(w, w', {p}, {pl}) && w'.pctxs.Keys <= w.pctxs.Keys && w'.plugins.Keys <= w.plugins.Keys
      && (p in w'.pctxs && w'.pctxs[p].pool.Some? ==> w'.pctxs[p].free == InsertHead(w.pctxs[p].free, h))
      && (pl in w'.plugins ==>
            w'.plugins[pl].free
            == if w.pctxs[p].done && Remove(w.pctxs[p].occupied, h) == [] then InsertHead(w.plugins[pl].free, p)
               else w.plugins[pl].free)
  {
    hide RetireHttp, FreeCtx;
    var p := w.hctxs[w.requests[r][0]].parent;
    var w1 := RetireHttp(w, r);
    RetireHttpSpares(w, r);
    assert p in w1.pctxs.Keys;
    if w.pctxs[p].done {
      FreeCtxSpares(w1, p);
      SparesTrans(w, w1, FreeCtx(w1, p), {p}, {w.pctxs[p].plugin});
    }
  }

  // ------------------------------------------------------------------------------------
  // The cleanup of a request

  /** The HTTP contexts in a that belong to p, in order. */
  function ChildrenIn(w: World, a: seq<Ref>, p: Ref): seq<Ref> {
    if a == [] then []
    else
      var h := a[|a| - 1];
      ChildrenIn(w, a[..|a| - 1], p) + if h in w.hctxs && w.hctxs[h].parent == p then [h] else []
  }

  /** The plugin context of a child goes when the child does: it is done and has no other in use. */
  predicate ParentGoes(w: World, h: Ref, pl: Ref) {
    && h in w.hctxs && w.hctxs[h].parent in w.pctxs
    && var p := w.hctxs[h].parent;
       w.pctxs[p].plugin == pl && w.pctxs[p].done && w.pctxs[p].occupied == [h]
  }

  /** The contexts of pl that come back as the HTTP contexts in a are let go, in order. */
  function ParentsIn(w: World, a: seq<Ref>, pl: Ref): seq<Ref> {
    if a == [] then []
    else
      var h := a[|a| - 1];
      ParentsIn(w, a[..|a| - 1], pl) + if ParentGoes(w, h, pl) then [w.hctxs[h].parent] else []
  }

  /** A context none of whose children are among the first k entries is as it was after k turns. */
  lemma {:induction false} UntouchedByTurns(w: World, r: ReqId, k: nat, p: Ref)
    requires Inv(w) && r in w.touched && r in w.requests && k <= |w.requests[r]|
    requires forall i :: 0 <= i < k ==> w.requests[r][i] in w.hctxs && w.hctxs[w.requests[r][i]].parent != p
    ensures p in Turns(w, r, k).pctxs ==> p in w.pctxs && Turns(w, r, k).pctxs[p] == w.pctxs[p]
  {
    hide Inv, CleanupOne;
    if k > 0 {
      UntouchedByTurns(w, r, k - 1, p);
      var w1 := Turns(w, r, k - 1);
      TurnKeeps(w, w1, r, k);
      CleanupOneSpares(w1, r);
      assert w1.requests[r][0] == w.requests[r][k - 1];
      assert p in Turns(w, r, k).pctxs ==> p in Turns(w, r, k).pctxs.Keys;
    }
  }

  /** The next entry is as it was, and so is its parent. */
  lemma NextEntry(w: World, r: ReqId, k: nat)
    requires Inv(w) && r in w.touched && r in w.requests && k < |w.requests[r]|
    ensures var w1 := Turns(w, r, k); var h := w.requests[r][k];
      && HasFirst(w1, r) && w1.requests[r][0] == h && h in w.hctxs && w1.hctxs[h] == w.hctxs[h]
      && var p := w.hctxs[h].parent;
         && p in w.pctxs && w1.pctxs[p] == w.pctxs[p] && h in w.pctxs[p].occupied && NoDup(w.pctxs[p].occupied)
         && w.pctxs[p].plugin in w.plugins
  {
    hide Turns, Obeyed, Needed, Quiet, PluginQueues, Pools, Handles, Ids, Counters, Addresses, Structure;
    var w1 := Turns(w, r, k);
    var a := w.requests[r];
    FirstIsLive(w1, r);
    EntriesAre(w, r);
    EntryIsChild(w, r, k);
    UntouchedByTurns(w, r, k, w.hctxs[a[k]].parent);
  }

  lemma EntriesAre(w: World, r: ReqId)
    requires Structure(w) && r in w.requests
    ensures forall i :: 0 <= i < |w.requests[r]| ==> w.requests[r][i] in w.hctxs
    ensures forall i, j :: 0 <= i < j < |w.requests[r]| ==>
              w.hctxs[w.requests[r][i]].parent != w.hctxs[w.requests[r][j]].parent
  {
    hide PluginQueues, ChildQueues, Pools, Handles, Ids, Counters, Addresses;
    forall i | 0 <= i < |w.requests[r]|
      ensures w.requests[r][i] in w.hctxs
    {
      assert w.requests[r][i] in w.requests[r];
    }
  }

  lemma EntryIsChild(w: World, r: ReqId, k: nat)
    requires Structure(w) && r in w.requests && k < |w.requests[r]|
    ensures var h := w.requests[r][k];
      h in w.hctxs && var p := w.hctxs[h].parent;
      p in w.pctxs && h in w.pctxs[p].occupied && NoDup(w.pctxs[p].occupied) && w.pctxs[p].plugin in w.plugins
  {
    hide Pools, Handles, Ids, Counters, Addresses;
    assert w.requests[r][k] in w.requests[r];
  }

  lemma TurnIs(w: World, r: ReqId, k: nat)
    requires Inv(w) && r in w.touched && r in w.requests && k < |w.requests[r]|
    ensures HasFirst(Turns(w, r, k), r) && Turns(w, r, k + 1) == CleanupOne(Turns(w, r, k), r)
  {
    hide Inv, CleanupOne, Shrinks;
    TurnKeeps(w, Turns(w, r, k), r, k + 1);
  }

  /** What one turn does to the free queue of p, if p has a pool afterwards. */
  lemma OneTurnHttp(w: World, r: ReqId, k: nat, p: Ref)
    requires Inv(w) && r in w.touched && r in w.requests && k < |w.requests[r]|
    requires p in Turns(w, r, k + 1).pctxs && Turns(w, r, k + 1).pctxs[p].pool.Some?
    ensures p in Turns(w, r, k).pctxs && Turns(w, r, k).pctxs[p].pool.Some?
    ensures var h := w.requests[r][k];
      h in w.hctxs
      && Fifo([], Turns(w, r, k).pctxs[p].free, Turns(w, r, k + 1).pctxs[p].free,
              if w.hctxs[h].parent == p then [h] else [])
  {
    hide Inv, Turns, CleanupOne, Fifo, Shrinks;
    var w1, w2 := Turns(w, r, k), Turns(w, r, k + 1);
    TurnIs(w, r, k);
    NextEntry(w, r, k);
    CleanupOneSpares(w1, r);
    EntryParentBusy(w1, r);
    assert p in w2.pctxs.Keys;
    Unchanged(w1.pctxs[p].free);
    Pushed(w1.pctxs[p].free, w.requests[r][k]);
  }

  lemma ChildrenInNext(w: World, a: seq<Ref>, k: nat, p: Ref)
    requires k < |a| && a[k] in w.hctxs
    ensures ChildrenIn(w, a[..k + 1], p) == ChildrenIn(w, a[..k], p) + if w.hctxs[a[k]].parent == p then [a[k]] else []
  {
    assert a[..k + 1][..k] == a[..k];
  }

  lemma {:induction false} TurnsFifoHttp(w: World, r: ReqId, k: nat, p: Ref)
    requires Inv(w) && r in w.touched && r in w.requests && k <= |w.requests[r]| && p in w.pctxs
    requires p in Turns(w, r, k).pctxs && Turns(w, r, k).pctxs[p].pool.Some?
    ensures Fifo([], w.pctxs[p].free, Turns(w, r, k).pctxs[p].free, ChildrenIn(w, w.requests[r][..k], p))
  {
    hide Inv, CleanupOne, Fifo, Shrinks, ChildrenIn;
    var a := w.requests[r];
    if k == 0 {
      Unchanged(w.pctxs[p].free);
      NoneIn(w, p);
    } else {
      OneTurnHttp(w, r, k - 1, p);
      TurnsFifoHttp(w, r, k - 1, p);
      ChildrenInNext(w, a, k - 1, p);
      var none: seq<Ref> := [];
      assert none + none == none;
      FifoTrans([], w.pctxs[p].free, Turns(w, r, k - 1).pctxs[p].free, ChildrenIn(w, a[..k - 1], p), [],
                Turns(w, r, k).pctxs[p].free, if w.hctxs[a[k - 1]].parent == p then [a[k - 1]] else []);
    }
  }

  lemma NoneIn(w: World, x: Ref)
    ensures ChildrenIn(w, [], x) == [] && ParentsIn(w, [], x) == []
  {
  }

  lemma EntryParentBusy(w: World, r: ReqId)
    requires Inv(w) && HasFirst(w, r)
    ensures w.pctxs[w.hctxs[w.requests[r][0]].parent].pool.Some?
  {
    hide Obeyed, Needed, PluginQueues, Handles, Ids, Counters, Addresses;
    assert w.requests[r][0] in w.requests[r];
  }

  /** What one turn does to the free queue of pl, if pl is there afterwards. */
  lemma OneTurnPlugin(w: World, r: ReqId, k: nat, pl: Ref)
    requires Inv(w) && r in w.touched && r in w.requests && k < |w.requests[r]| && pl in Turns(w, r, k + 1).plugins
    ensures pl in Turns(w, r, k).plugins
    ensures var h := w.requests[r][k];
      h in w.hctxs
      && Fifo([], Turns(w, r, k).plugins[pl].free, Turns(w, r, k + 1).plugins[pl].free,
              if ParentGoes(w, h, pl) then [w.hctxs[h].parent] else [])
  {
    hide Inv, Turns, CleanupOne, Fifo, Shrinks;
    var w1, w2 := Turns(w, r, k), Turns(w, r, k + 1);
    var h := w.requests[r][k];
    TurnIs(w, r, k);
    NextEntry(w, r, k);
    CleanupOneSpares(w1, r);
    assert pl in w2.plugins.Keys && pl in w1.plugins.Keys;
    var p := w.hctxs[h].parent;
    RemoveLast(w.pctxs[p].occupied, h);
    Unchanged(w1.plugins[pl].free);
    Pushed(w1.plugins[pl].free, p);
  }

  lemma ParentsInNext(w: World, a: seq<Ref>, k: nat, pl: Ref)
    requires k < |a|
    ensures ParentsIn(w, a[..k + 1], pl)
         == ParentsIn(w, a[..k], pl) + if ParentGoes(w, a[k], pl) then [w.hctxs[a[k]].parent] else []
  {
    assert a[..k + 1][..k] == a[..k];
  }

  lemma {:induction false} TurnsFifoPlugin(w: World, r: ReqId, k: nat, pl: Ref)
    requires Inv(w) && r in w.touched && r in w.requests && k <= |w.requests[r]| && pl in w.plugins
    requires pl in Turns(w, r, k).plugins
    ensures Fifo([], w.plugins[pl].free, Turns(w, r, k).plugins[pl].free, ParentsIn(w, w.requests[r][..k], pl))
  {
    hide Inv, CleanupOne, Fifo, Shrinks, ParentsIn, ParentGoes;
    var a := w.requests[r];
    if k == 0 {
      Unchanged(w.plugins[pl].free);
      NoneIn(w, pl);
    } else {
      OneTurnPlugin(w, r, k - 1, pl);
      TurnsFifoPlugin(w, r, k - 1, pl);
      ParentsInNext(w, a, k - 1, pl);
      var none: seq<Ref> := [];
      assert none + none == none;
      FifoTrans([], w.plugins[pl].free, Turns(w, r, k - 1).plugins[pl].free, ParentsIn(w, a[..k - 1], pl), [],
                Turns(w, r, k).plugins[pl].free,
                if ParentGoes(w, a[k - 1], pl) then [w.hctxs[a[k - 1]].parent] else []);
    }
  }

  // ------------------------------------------------------------------------------------
  // Configuring

  lemma TakeCtxSpares(w: World, pl: Ref)
    requires w.next !in w.pctxs
    requires pl in w.plugins && forall p :: p in w.plugins[pl].free ==> p in w.pctxs && w.pctxs[p].plugin == pl
    ensures var w' := TakeCtx(w, pl);
      && SameSpares(w, w', {}, {pl}) && w'.pctxs.Keys >= w.pctxs.Keys && w'.plugins.Keys == w.plugins.Keys
      && w'.plugins[pl].free == if w.plugins[pl].free != [] then w.plugins[pl].free else [w.next]
  {
  }

  lemma DeleteCtxSpares(w: World, p: Ref)
    requires OwnedCtx(w, p)
    ensures var w' := DeleteCtx(w, p); var pl := w.pctxs[p].plugin;
      && SameSpares(w, w', {p}, {pl}) && w'.pctxs.Keys <= w.pctxs.Keys && w'.plugins.Keys <= w.plugins.Keys
      && (p in w'.pctxs && w'.pctxs[p].pool.Some? && w.pctxs[p].occupied != [] ==> w'.pctxs[p].free == w.pctxs[p].free)
      && (p in w'.pctxs && w.pctxs[p].occupied == [] ==> w'.pctxs[p].pool.None?)
      && (pl in w'.plugins ==>
            w'.plugins[pl].free
            == if w.pctxs[p].occupied == [] then InsertHead(w.plugins[pl].free, p) else w.plugins[pl].free)
  {
    hide FreeCtx;
    FreeCtxSpares(MarkCtx(w, p), p);
  }

  lemma ConfiguringSpares(w: World, p: Ref, garbage: Option<Bytes>)
    requires OwnedCtx(w, p)
    ensures var w' := Configuring(w, p, garbage);
      && SameSpares(w, w', {p}, {}) && w'.pctxs.Keys == w.pctxs.Keys && w'.plugins == w.plugins
      && w'.pctxs[p] == w.pctxs[p].(body := None)
  {
    hide Configuring;
    ConfiguringIs(w, p, garbage);
  }

  /** The configuration succeeds, and the context stays in use. */
  predicate Accepted(o: ConfigureAnswers) {
    o.createRc == NGX_OK && o.poolOk && o.stateOk && o.configureRc > 0
  }

  lemma ConfiguredSpares(w: World, p: Ref, o: ConfigureAnswers)
    requires OwnedCtx(w, p) && w.pctxs[p].occupied == [] && !w.plugins[w.pctxs[p].plugin].done && o.createRc == NGX_OK
    ensures var w' := Configured(w, p, o); var pl := w.pctxs[p].plugin;
      && SameSpares(w, w', {p}, {pl}) && w'.pctxs.Keys <= w.pctxs.Keys && w'.plugins.Keys == w.plugins.Keys
      && w'.plugins[pl].free == if Accepted(o) then w.plugins[pl].free else InsertHead(w.plugins[pl].free, p)
  {
    hide DeleteCtx, Configuring;
    DeleteCtxSpares(w, p);
    DeleteCtxPlugins(w, p);
    ConfiguringSpares(w, p, o.garbage);
    var w1 := Configuring(w, p, o.garbage);
    assert p in w1.pctxs.Keys;
    DeleteCtxSpares(w1, p);
    DeleteCtxPlugins(w1, p);
    if o.poolOk && o.stateOk && o.configureRc <= 0 {
      SparesTrans(w, w1, DeleteCtx(w1, p), {p}, {w.pctxs[p].plugin});
    }
    assert w.pctxs[p].plugin in Configured(w, p, o).plugins.Keys;
  }

  lemma RotateCtxSpares(w: World, pl: Ref)
    requires Spare(w, pl)
    ensures var w' := RotateCtx(w, pl); var p := Last(w.plugins[pl].free);
      && SameSpares(w, w', {p}, {pl}) && w'.pctxs.Keys == w.pctxs.Keys && w'.plugins.Keys == w.plugins.Keys
      && w'.plugins[pl].free == InsertHead(ButLast(w.plugins[pl].free), p)
  {
  }

  lemma ActivateCtxSpares(w: World, pl: Ref, poolOk: bool)
    requires Spare(w, pl)
    ensures var w' := ActivateCtx(w, pl, poolOk); var p := Last(w.plugins[pl].free);
      && SameSpares(w, w', {p}, {pl}) && w'.pctxs.Keys == w.pctxs.Keys && w'.plugins.Keys == w.plugins.Keys
      && w'.plugins[pl].free == ButLast(w.plugins[pl].free) && w'.plugins[pl].done == w.plugins[pl].done
      && OwnedCtx(w', p) && w'.pctxs[p].plugin == pl && w'.pctxs[p].occupied == w.pctxs[p].occupied
  {
  }

  lemma AnnounceCtxSpares(w: World, pl: Ref, ok: bool)
    requires Spare(w, pl)
    ensures var w' := AnnounceCtx(w, pl, ok); w'.plugins == w.plugins && w'.pctxs == w.pctxs && Spare(w', pl)
  {
  }

  lemma CreatedSpares(w: World, pl: Ref, o: ConfigureAnswers)
    requires Spare(w, pl) && !w.plugins[pl].done && w.pctxs[Last(w.plugins[pl].free)].occupied == []
    ensures var w' := Created(w, pl, o); var q := w.plugins[pl].free;
      && SameSpares(w, w', {Last(q)}, {pl}) && w'.plugins.Keys == w.plugins.Keys && w'.pctxs.Keys <= w.pctxs.Keys
      && w'.plugins[pl].free == if Accepted(o) then ButLast(q) else InsertHead(ButLast(q), Last(q))
  {
    hide AnnounceCtx, RotateCtx, ActivateCtx, Configured;
    var w1 := AnnounceCtx(w, pl, o.createRc == NGX_OK);
    AnnounceCtxSpares(w, pl, o.createRc == NGX_OK);
    RotateCtxSpares(w1, pl);
    ActivateCtxSpares(w1, pl, o.poolOk);
    if o.createRc == NGX_OK {
      var w2 := ActivateCtx(AnnounceCtx(w, pl, true), pl, o.poolOk);
      var p := Last(w.plugins[pl].free);
      ConfiguredSpares(w2, p, o);
      SparesTrans(w, w2, Configured(w2, p, o), {p}, {pl});
    }
  }

  /** A configuration takes the record at the front of the order of reuse, or a new one, and gives
      it back to the end of the order unless it is accepted. */
  lemma ConfigureSpares(w: World, pl: Ref, o: ConfigureAnswers)
    requires Inv(w) && pl in w.pluginHandles
    ensures pl in w.plugins
    ensures var w' := Configuration(w, pl, o); var q := w.plugins[pl].free;
      && w'.plugins.Keys == w.plugins.Keys && SameSpares(w, w', {NextCtx(w, pl)}, {pl})
      && w'.plugins[pl].free
         == (if q == [] && !o.recordOk then q
             else if Accepted(o) then (if q != [] then ButLast(q) else [])
             else if q != [] then InsertHead(ButLast(q), Last(q)) else [w.next])
    ensures NextCtx(w, pl) in w.pctxs ==> w.pctxs[NextCtx(w, pl)].pool.None?
  {
    hide Inv, TakeCtx, Created;
    HandleConfigures(w, pl);
    HandleIsNotDone(w, pl);
    NextCtxIsSpare(w, pl);
    if w.plugins[pl].free != [] || o.recordOk {
      var w1 := TakeCtx(w, pl);
      TakeCtxSees(w, pl);
      TakeCtxSpares(w, pl);
      TakenIsEmpty(w, pl);
      CreatedSpares(w1, pl, o);
      SparesTransAdd(w, w1, Created(w1, pl, o), {NextCtx(w, pl)}, {pl});
      assert pl in w1.plugins.Keys && pl in Created(w1, pl, o).plugins.Keys;
    }
  }

  lemma SparesTransAdd(w: World, w1: World, w2: World, x: set<Ref>, y: set<Ref>)
    requires SameSpares(w, w1, {}, y) && SameSpares(w1, w2, x, y)
    requires w1.pctxs.Keys >= w.pctxs.Keys && w1.plugins.Keys >= w.plugins.Keys
    ensures SameSpares(w, w2, x, y)
  {
    assert forall p :: p in w.pctxs.Keys ==> p in w1.pctxs.Keys;
    assert forall q :: q in w.plugins.Keys ==> q in w1.plugins.Keys;
  }

  lemma NextCtxIsSpare(w: World, pl: Ref)
    requires Inv(w) && pl in w.plugins
    ensures w.next !in w.pctxs
    ensures NextCtx(w, pl) in w.pctxs ==> w.pctxs[NextCtx(w, pl)].pool.None? && w.pctxs[NextCtx(w, pl)].occupied == []
  {
    hide Obeyed, Needed, Quiet, Requests, Ids, Counters;
    if w.plugins[pl].free != [] {
      assert Last(w.plugins[pl].free) in w.plugins[pl].free;
      SpareIsEmpty(w.pctxs, w.hctxs, w.busy, w.busyHttp, w.pools, Last(w.plugins[pl].free));
    }
  }

  lemma TakenIsEmpty(w: World, pl: Ref)
    requires pl in w.plugins && forall p :: p in w.plugins[pl].free ==> p in w.pctxs && w.pctxs[p].plugin == pl
    requires NextCtx(w, pl) in w.pctxs ==> w.pctxs[NextCtx(w, pl)].occupied == []
    requires w.next !in w.pctxs
    ensures var w' := TakeCtx(w, pl);
      Last(w'.plugins[pl].free) == NextCtx(w, pl) && w'.pctxs[NextCtx(w, pl)].occupied == []
  {
  }

  // ------------------------------------------------------------------------------------
  // Serving

  /** A phase of r under p gets as far as creating an HTTP context. */
  predicate CreatesHttp(w: World, p: Ref, r: ReqId, o: FetchAnswers) {
    && (r in w.touched || o.moduleCtxOk) && (r in w.requests || o.arrayOk) && Entry(w, r, p).None?
    && p in w.pctxs && (w.pctxs[p].free != [] || o.recordOk)
  }

  /** The record that it works on. */
  function NextHttp(w: World, p: Ref): Ref
    requires p in w.pctxs
  {
    if w.pctxs[p].free != [] then Last(w.pctxs[p].free) else w.nextHttp
  }

  /** The free queue and the arrays once an HTTP context has been created, or refused. */
  lemma CreateHttpSpares(w: World, p: Ref, r: ReqId, o: FetchAnswers)
    requires CanServe(w, p) && r in w.requests && (w.pctxs[p].free != [] || o.recordOk)
    ensures var w' := CreateHttp(w, p, r, o); var q := w.pctxs[p].free;
      && SameSpares(w, w', {p}, {}) && w'.pctxs.Keys == w.pctxs.Keys && w'.plugins.Keys == w.plugins.Keys
      && w'.pctxs[p].free == (if o.createRc == NGX_OK then (if q != [] then ButLast(q) else [])
                              else if q != [] then InsertHead(ButLast(q), Last(q)) else [w.nextHttp])
      && w'.requests == (if o.createRc == NGX_OK then w.requests[r := w.requests[r] + [NextHttp(w, p)]] else w.requests)
  {
    hide TakeHttp;
    TakenIsThere(w, p);
    TakeHttpSpares(w, p);
  }

  lemma TakeHttpSpares(w: World, p: Ref)
    requires CanServe(w, p)
    ensures var w' := TakeHttp(w, p);
      && SameSpares(w, w', {p}, {}) && w'.pctxs.Keys == w.pctxs.Keys && w'.plugins.Keys == w.plugins.Keys
      && w'.pctxs[p].free == if w.pctxs[p].free != [] then w.pctxs[p].free else [w.nextHttp]
  {
  }

  /** The effect of looking an HTTP context up, in the middle of an entry or as a whole. */
  ghost predicate Fetches(w: World, p: Ref, r: ReqId, o: FetchAnswers, w': World)
    requires p in w.pctxs
  {
    var q := w.pctxs[p].free;
    && SameSpares(w, w', {p}, {}) && w'.pctxs.Keys == w.pctxs.Keys && w'.plugins.Keys == w.plugins.Keys
    && w'.pctxs[p].free
       == (if !CreatesHttp(w, p, r, o) then q
           else if o.createRc == NGX_OK then (if q != [] then ButLast(q) else [])
           else if q != [] then InsertHead(ButLast(q), Last(q)) else [w.nextHttp])
    && (CreatesHttp(w, p, r, o) && o.createRc == NGX_OK ==>
          r in w'.requests && w'.requests[r] == Array(w, r) + [NextHttp(w, p)])
  }

  lemma FetchSpares(w: World, p: Ref, r: ReqId, o: FetchAnswers)
    requires CanServe(w, p)
    ensures Fetches(w, p, r, o, Fetch(w, p, r, o))
  {
    hide CreateHttp;
    var w1 := w.(touched := w.touched + {r});
    if (r in w.touched || o.moduleCtxOk) && (r in w.requests || o.arrayOk) && Entry(w1, r, p).None? {
      NoEntryWithoutArray(w, r, p);
      if w.pctxs[p].free != [] || o.recordOk {
        CreateHttpSpares(AddArray(w1, r), p, r, o);
      } else {
        NoRecord(AddArray(w1, r), p, r, o);
      }
    }
  }

  lemma NoEntryWithoutArray(w: World, r: ReqId, p: Ref)
    ensures Entry(w.(touched := w.touched + {r}), r, p) == Entry(w, r, p)
    ensures var w2 := AddArray(w.(touched := w.touched + {r}), r); Array(w2, r) == Array(w, r)
  {
  }

  lemma NoRecord(w: World, p: Ref, r: ReqId, o: FetchAnswers)
    requires CanServe(w, p) && r in w.requests && w.pctxs[p].free == [] && !o.recordOk
    ensures CreateHttp(w, p, r, o) == w
  {
  }

  lemma ServedSpares(w: World, p: Ref, r: ReqId, body: Option<Bytes>, o: FetchAnswers, w': World)
    requires CanServe(w, p)
    requires var w1 := Fetch(Arrive(w, p, body), p, r, o);
      w'.plugins == w1.plugins && w'.requests == w1.requests && w'.pctxs.Keys == w1.pctxs.Keys
      && (forall q :: q in w1.pctxs && q != p ==> w'.pctxs[q] == w1.pctxs[q])
      && (p in w1.pctxs ==> w'.pctxs[p].free == w1.pctxs[p].free)
    ensures Fetches(w, p, r, o, w')
  {
    hide Fetch, Arrive;
    ArriveSpares(w, p, body, r, o);
    FetchSpares(Arrive(w, p, body), p, r, o);
  }

  lemma ArriveSpares(w: World, p: Ref, body: Option<Bytes>, r: ReqId, o: FetchAnswers)
    requires CanServe(w, p)
    ensures var w' := Arrive(w, p, body);
      && w'.plugins == w.plugins && w'.requests == w.requests && w'.nextHttp == w.nextHttp
      && w'.pctxs.Keys == w.pctxs.Keys
      && (forall q :: q in w.pctxs && q != p ==> w'.pctxs[q] == w.pctxs[q]) && w'.pctxs[p].free == w.pctxs[p].free
      && (CreatesHttp(w', p, r, o) <==> CreatesHttp(w, p, r, o))
  {
  }

  lemma ClearSpares(w: World, p: Ref, pl: Ref, what: What)
    requires p in w.pctxs && w.curState.Some? && w.curState.value.OfCtx? && w.curState.value.ctx == p
    ensures forall w' :: w' == ClearState(w) || w' == ClearState(Emit(w, pl, what)) ==>
              && w'.plugins == w.plugins && w'.requests == w.requests && w'.pctxs.Keys == w.pctxs.Keys
              && (forall q :: q in w.pctxs && q != p ==> w'.pctxs[q] == w.pctxs[q])
              && w'.pctxs[p].free == w.pctxs[p].free
  {
  }

  lemma ServiceSpares(w: World, p: Ref, r: ReqId, body: Option<Bytes>, o: FetchAnswers)
    requires Inv(w) && p in w.ctxHandles
    ensures p in w.pctxs && Fetches(w, p, r, o, Service(w, p, r, body, o))
  {
    hide Structure, Obeyed, Needed, Fetch, Arrive, ClearState, Fetches;
    HandleServes(w, p);
    ArriveShows(w, p, body);
    var w0 := Arrive(w, p, body);
    var w1 := Fetch(w0, p, r, o);
    FetchShows(w0, p, r, body, o, false);
    var e := Entry(w1, r, p);
    ClearSpares(w1, p, w.pctxs[p].plugin, OnStream(if e.Some? then w1.hctxs[e.value].id else 0, body));
    ServedSpares(w, p, r, body, o, Service(w, p, r, body, o));
  }

  lemma CallResponseSpares(w: World, p: Ref, r: ReqId, o: FetchAnswers)
    requires Inv(w) && p in w.ctxHandles
    ensures p in w.pctxs && Fetches(w, p, r, o, CallResponse(w, p, r, o))
  {
    hide Structure, Obeyed, Needed, Fetch, Arrive, ClearState, Fetches;
    HandleServes(w, p);
    ArriveShows(w, p, None);
    var w0 := Arrive(w, p, None);
    var w1 := Fetch(w0, p, r, o);
    FetchShows(w0, p, r, None, o, true);
    ClearSpares(w1, p, w.pctxs[p].plugin, OnHttpCallResponse(w.pctxs[p].id));
    ServedSpares(w, p, r, None, o, CallResponse(w, p, r, o));
  }

  // ------------------------------------------------------------------------------------
  // Steps: HTTP contexts

  /** The records a step takes out of the free queue of p. */
  function HandsOutHttp(w: World, s: Step, p: Ref): seq<Ref> {
    match s
    case Serve(q, r, _, o) =>
      if q == p && CreatesHttp(w, p, r, o) && w.pctxs[p].free != [] then [NextHttp(w, p)] else []
    case ServeCallResponse(q, r, o) =>
      if q == p && CreatesHttp(w, p, r, o) && w.pctxs[p].free != [] then [NextHttp(w, p)] else []
    case _ => []
  }

  /** The records that come back to p, in order: one that the guest refuses, and those that a
      request held. */
  function ReturnsHttp(w: World, s: Step, p: Ref): seq<Ref> {
    match s
    case Serve(q, r, _, o) => if q == p && CreatesHttp(w, p, r, o) && o.createRc != NGX_OK then [NextHttp(w, p)] else []
    case ServeCallResponse(q, r, o) =>
      if q == p && CreatesHttp(w, p, r, o) && o.createRc != NGX_OK then [NextHttp(w, p)] else []
    case EndRequest(r) => ChildrenIn(w, Array(w, r), p)
    case _ => []
  }

  ghost predicate HasPool(w: World, p: Ref, q: Ref) {
    p in w.pctxs && w.pctxs[p].pool == Some(q)
  }

  lemma FetchesFifo(w: World, p: Ref, r: ReqId, o: FetchAnswers, w': World, x: Ref)
    requires p in w.pctxs && Fetches(w, p, r, o, w') && x in w.pctxs && x in w'.pctxs
    ensures var creates := x == p && CreatesHttp(w, p, r, o);
      Fifo(if creates && w.pctxs[p].free != [] then [NextHttp(w, p)] else [], w.pctxs[x].free, w'.pctxs[x].free,
           if creates && o.createRc != NGX_OK then [NextHttp(w, p)] else [])
  {
    var q := w.pctxs[x].free;
    Unchanged(q);
    if q != [] {
      Popped(q);
      Rotated(q);
    } else {
      Pushed(q, w.nextHttp);
      assert InsertHead(q, w.nextHttp) == [w.nextHttp];
    }
  }

  lemma CleanupHttpFifo(w: World, r: ReqId, p: Ref)
    requires Inv(w) && r in w.touched && p in w.pctxs
    requires p in Cleanup(w, r).pctxs && Cleanup(w, r).pctxs[p].pool.Some?
    ensures Fifo([], w.pctxs[p].free, Cleanup(w, r).pctxs[p].free, ChildrenIn(w, Array(w, r), p))
  {
    hide Inv, Turns, Fifo;
    Unchanged(w.pctxs[p].free);
    if r in w.requests {
      var a := w.requests[r];
      CleanupIsTurns(w, r);
      TurnsFifoHttp(w, r, |a|, p);
      assert a[..|a|] == a;
    }
  }

  lemma UnloadSpares(w: World, pl: Ref)
    requires pl in w.plugins
    ensures SameSpares(w, Unload(w, pl), {}, {})
  {
    hide FreePlugin;
    FreePluginSpares(MarkPlugin(w, pl), pl);
  }

  lemma LoadSpares(w: World, o: LoadAnswers)
    requires w.next !in w.plugins
    ensures SameSpares(w, Load(w, o), {}, {})
  {
  }

  /** As long as p keeps its pool, its free queue is first in, first out. */
  lemma StepHttpFifo(w: World, s: Step, p: Ref, q: Ref)
    requires Inv(w) && Enabled(w, s) && HasPool(w, p, q) && HasPool(Next(w, s), p, q)
    ensures Fifo(HandsOutHttp(w, s, p), w.pctxs[p].free, Next(w, s).pctxs[p].free, ReturnsHttp(w, s, p))
  {
    hide Inv, Configuration, Service, CallResponse, Cleanup, DeleteCtx, Unload, Load, Fifo, Fetches, CreatesHttp;
    Unchanged(w.pctxs[p].free);
    match s
    case LoadPlugin(o) =>
      NextIsUnused(w);
      LoadSpares(w, o);
    case ConfigurePlugin(pl, o) => ConfigureSpares(w, pl, o);
    case Serve(x, r, body, o) =>
      ServiceSpares(w, x, r, body, o);
      FetchesFifo(w, x, r, o, Next(w, s), p);
    case ServeCallResponse(x, r, o) =>
      CallResponseSpares(w, x, r, o);
      FetchesFifo(w, x, r, o, Next(w, s), p);
    case EndRequest(r) => CleanupHttpFifo(w, r, p);
    case FinalizeCtx(x) =>
      HandleServes(w, x);
      DeleteCtxSpares(w, x);
    case FinalizePlugin(pl) =>
      HandleConfigures(w, pl);
      UnloadSpares(w, pl);
  }

  lemma NextIsUnused(w: World)
    requires Inv(w)
    ensures w.next !in w.plugins
  {
    hide Obeyed, Needed, Quiet;
  }

  /** What "taken" means to everybody else: the guest is asked about this record, and if it accepts,
      the record joins the array of the request. */
  lemma TakenHttpIsHeld(w: World, s: Step)
    requires Inv(w) && Enabled(w, s)
    ensures s.Serve? && CreatesHttp(w, s.p, s.r, s.fetch) && s.fetch.createRc == NGX_OK ==>
              s.r in Next(w, s).requests && Next(w, s).requests[s.r] == Array(w, s.r) + [NextHttp(w, s.p)]
  {
    hide Inv, Service, CallResponse, CreatesHttp;
    if s.Serve? {
      ServiceSpares(w, s.p, s.r, s.body, s.fetch);
    }
  }

  // ------------------------------------------------------------------------------------
  // Steps: plugin contexts

  function HandsOutCtx(w: World, s: Step, pl: Ref): seq<Ref> {
    match s
    case ConfigurePlugin(q, _) =>
      if q == pl && pl in w.plugins && w.plugins[pl].free != [] then [NextCtx(w, pl)] else []
    case _ => []
  }

  /** The contexts that come back to pl, in order: one that is refused or given up while it is
      configured, one that is finalized with no child in use, those whose last child a request held. */
  function ReturnsCtx(w: World, s: Step, pl: Ref): seq<Ref> {
    match s
    case ConfigurePlugin(q, o) =>
      if q == pl && pl in w.plugins && (w.plugins[pl].free != [] || o.recordOk) && !Accepted(o)
      then [NextCtx(w, pl)] else []
    case FinalizeCtx(p) => if p in w.pctxs && w.pctxs[p].plugin == pl && w.pctxs[p].occupied == [] then [p] else []
    case EndRequest(r) => ParentsIn(w, Array(w, r), pl)
    case _ => []
  }

  lemma ConfigureFifo(w: World, pl: Ref, o: ConfigureAnswers, q': seq<Ref>)
    requires pl in w.plugins
    requires var q := w.plugins[pl].free;
      q' == (if q == [] && !o.recordOk then q
             else if Accepted(o) then (if q != [] then ButLast(q) else [])
             else if q != [] then InsertHead(ButLast(q), Last(q)) else [w.next])
    ensures Fifo(HandsOutCtx(w, ConfigurePlugin(pl, o), pl), w.plugins[pl].free, q',
                 ReturnsCtx(w, ConfigurePlugin(pl, o), pl))
  {
    var q := w.plugins[pl].free;
    Unchanged(q);
    if q != [] {
      Popped(q);
      Rotated(q);
    } else {
      Pushed(q, w.next);
      assert InsertHead(q, w.next) == [w.next];
    }
  }

  lemma CleanupCtxFifo(w: World, r: ReqId, pl: Ref)
    requires Inv(w) && r in w.touched && pl in w.plugins && pl in Cleanup(w, r).plugins
    ensures Fifo([], w.plugins[pl].free, Cleanup(w, r).plugins[pl].free, ParentsIn(w, Array(w, r), pl))
  {
    hide Inv, Turns, Fifo;
    Unchanged(w.plugins[pl].free);
    if r in w.requests {
      var a := w.requests[r];
      CleanupIsTurns(w, r);
      TurnsFifoPlugin(w, r, |a|, pl);
      assert a[..|a|] == a;
    }
  }

  /** As long as pl is loaded, its free queue is first in, first out. */
  lemma StepCtxFifo(w: World, s: Step, pl: Ref)
    requires Inv(w) && Enabled(w, s) && pl in w.plugins && pl in Next(w, s).plugins
    ensures Fifo(HandsOutCtx(w, s, pl), w.plugins[pl].free, Next(w, s).plugins[pl].free, ReturnsCtx(w, s, pl))
  {
    hide Inv, Configuration, Service, CallResponse, Cleanup, DeleteCtx, Unload, Load, Fifo;
    Unchanged(w.plugins[pl].free);
    match s
    case LoadPlugin(o) =>
      NextIsUnused(w);
      LoadSpares(w, o);
    case ConfigurePlugin(q, o) =>
      ConfigureSpares(w, q, o);
      if q == pl {
        ConfigureFifo(w, pl, o, Next(w, s).plugins[pl].free);
      }
    case Serve(x, r, body, o) => ServiceSpares(w, x, r, body, o);
    case ServeCallResponse(x, r, o) => CallResponseSpares(w, x, r, o);
    case EndRequest(r) => CleanupCtxFifo(w, r, pl);
    case FinalizeCtx(x) =>
      HandleServes(w, x);
      DeleteCtxSpares(w, x);
      Pushed(w.plugins[pl].free, x);
    case FinalizePlugin(q) =>
      HandleConfigures(w, q);
      UnloadSpares(w, q);
  }

  // ------------------------------------------------------------------------------------
  // Runs

  /** From the n-th step of the run on, p has had the pool q. */
  ghost predicate PoolLives(ss: seq<Step>, n: nat, p: Ref, q: Ref)
    requires Legal(ss)
    decreases |ss|
  {
    HasPool(Run(ss), p, q) && (|ss| <= n || PoolLives(ss[..|ss| - 1], n, p, q))
  }

  /** From the n-th step of the run on, pl has been loaded. */
  ghost predicate PluginLives(ss: seq<Step>, n: nat, pl: Ref)
    requires Legal(ss)
    decreases |ss|
  {
    pl in Run(ss).plugins && (|ss| <= n || PluginLives(ss[..|ss| - 1], n, pl))
  }

  /** What a function of world and step yields over a run, from its n-th step on. */
  ghost function Collected(ss: seq<Step>, n: nat, f: (World, Step) -> seq<Ref>): seq<Ref>
    requires Legal(ss)
    decreases |ss|
  {
    if |ss| <= n then [] else Collected(ss[..|ss| - 1], n, f) + f(Run(ss[..|ss| - 1]), ss[|ss| - 1])
  }

  ghost function HandingOutHttp(p: Ref): (World, Step) -> seq<Ref> { (w, s) => HandsOutHttp(w, s, p) }
  ghost function ReturningHttp(p: Ref): (World, Step) -> seq<Ref> { (w, s) => ReturnsHttp(w, s, p) }
  ghost function HandingOutCtx(pl: Ref): (World, Step) -> seq<Ref> { (w, s) => HandsOutCtx(w, s, pl) }
  ghost function ReturningCtx(pl: Ref): (World, Step) -> seq<Ref> { (w, s) => ReturnsCtx(w, s, pl) }

  /** HTTP contexts are reused first-freed-first: over any stretch of a run in which their plugin
      context keeps its pool, those handed out again, followed by those still free, are those that
      were free at first, followed by those that came back, in order. */
  lemma {:induction false} HttpContextsAreReusedInOrder(ss: seq<Step>, n: nat, p: Ref, q: Ref)
    requires Legal(ss) && n <= |ss| && PoolLives(ss, n, p, q)
    ensures Legal(ss[..n]) && HasPool(Run(ss[..n]), p, q) && HasPool(Run(ss), p, q)
    ensures Fifo(Collected(ss, n, HandingOutHttp(p)), Run(ss[..n]).pctxs[p].free, Run(ss).pctxs[p].free,
                 Collected(ss, n, ReturningHttp(p)))
    decreases |ss|
  {
    hide Inv, Next, Enabled, Fifo, HandsOutHttp, ReturnsHttp;
    if n == |ss| {
      assert ss[..n] == ss;
      Unchanged(Run(ss).pctxs[p].free);
    } else {
      var init, s := ss[..|ss| - 1], ss[|ss| - 1];
      HttpContextsAreReusedInOrder(init, n, p, q);
      assert init[..n] == ss[..n];
      StepHttpFifo(Run(init), s, p, q);
      FifoTrans(Collected(init, n, HandingOutHttp(p)), Run(ss[..n]).pctxs[p].free, Run(init).pctxs[p].free,
                Collected(init, n, ReturningHttp(p)), HandsOutHttp(Run(init), s, p), Run(ss).pctxs[p].free,
                ReturnsHttp(Run(init), s, p));
    }
  }

  /** The same for plugin contexts, over any stretch in which their plugin is loaded. */
  lemma {:induction false} ContextsAreReusedInOrder(ss: seq<Step>, n: nat, pl: Ref)
    requires Legal(ss) && n <= |ss| && PluginLives(ss, n, pl)
    ensures Legal(ss[..n]) && pl in Run(ss[..n]).plugins && pl in Run(ss).plugins
    ensures Fifo(Collected(ss, n, HandingOutCtx(pl)), Run(ss[..n]).plugins[pl].free, Run(ss).plugins[pl].free,
                 Collected(ss, n, ReturningCtx(pl)))
    decreases |ss|
  {
    hide Inv, Next, Enabled, Fifo, HandsOutCtx, ReturnsCtx;
    if n == |ss| {
      assert ss[..n] == ss;
      Unchanged(Run(ss).plugins[pl].free);
    } else {
      var init, s := ss[..|ss| - 1], ss[|ss| - 1];
      ContextsAreReusedInOrder(init, n, pl);
      assert init[..n] == ss[..n];
      StepCtxFifo(Run(init), s, pl);
      FifoTrans(Collected(init, n, HandingOutCtx(pl)), Run(ss[..n]).plugins[pl].free, Run(init).plugins[pl].free,
                Collected(init, n, ReturningCtx(pl)), HandsOutCtx(Run(init), s, pl), Run(ss).plugins[pl].free,
                ReturnsCtx(Run(init), s, pl));
    }
  }
}
