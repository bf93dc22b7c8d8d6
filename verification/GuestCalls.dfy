/**
 Which calls each entry of the module makes, in order and with which ids, in terms of the records
 before and after it.
 */
module GuestCalls {
  import opened Common
  import opened Queues
  import opened Abi
  import opened Lifecycle
  import opened Invariant
  import opened Entries
  import opened EntriesHttp
  import opened Runs
  import opened StateCoherence
  import opened Holding
  import opened Together

  function Whats(calls: seq<Call>): (ws: seq<What>)
    ensures |ws| == |calls| && forall i :: 0 <= i < |calls| ==> ws[i] == calls[i].what
  {
    seq(|calls|, i requires 0 <= i < |calls| => calls[i].what)
  }

  /** Between w and w' exactly these calls are made, all of them of pl. */
  ghost predicate Makes(w: World, w': World, pl: Ref, whats: seq<What>) {
    && w.calls <= w'.calls && Whats(w'.calls[|w.calls|..]) == whats
    && forall c :: c in w'.calls[|w.calls|..] ==> c.plugin == pl
  }

  lemma MakesNothing(w: World, w': World, pl: Ref)
    requires w'.calls == w.calls
    ensures Makes(w, w', pl, [])
  {
  }

  lemma MakesOne(w: World, w': World, pl: Ref, what: What)
    requires w'.calls == Emit(w, pl, what).calls
    ensures Makes(w, w', pl, [what])
  {
    assert w'.calls[|w.calls|..] == [w'.calls[|w.calls|]];
  }

  lemma MakesTrans(w: World, w1: World, w2: World, pl: Ref, a: seq<What>, b: seq<What>)
    requires Makes(w, w1, pl, a) && Makes(w1, w2, pl, b)
    ensures Makes(w, w2, pl, a + b)
  {
    var x, y := w1.calls[|w.calls|..], w2.calls[|w1.calls|..];
    assert w2.calls[|w.calls|..] == x + y;
    assert Whats(x + y) == Whats(x) + Whats(y);
  }

  lemma MakesSame(w: World, w1: World, w2: World, pl: Ref, whats: seq<What>)
    requires Makes(w, w1, pl, whats) && w2.calls == w1.calls
    ensures Makes(w, w2, pl, whats)
  {
  }

  // ------------------------------------------------------------------------------------
  // Phases

  /** h is the HTTP context that r has under p. */
  ghost predicate Holds(w: World, r: ReqId, p: Ref, h: Ref) {
    r in w.requests && h in w.requests[r] && h in w.hctxs && w.hctxs[h].parent == p
  }

  ghost predicate HoldsNone(w: World, r: ReqId, p: Ref) {
    forall h :: !Holds(w, r, p, h)
  }

  lemma {:induction false} FindsHeld(hctxs: map<Ref, HttpCtx>, a: seq<Ref>, p: Ref, h: Ref)
    requires OnePerCtx(hctxs, a) && h in a && h in hctxs && hctxs[h].parent == p
    ensures FindEntry(hctxs, a, p) == Some(h)
  {
    var e := FindEntry(hctxs, a, p);
    var i :| 0 <= i < |a| && a[i] == h;
    var j :| 0 <= j < |a| && a[j] == e.value;
  }

  lemma HeldIsEntry(w: World, r: ReqId, p: Ref)
    requires Inv(w)
    ensures forall h: Ref :: Holds(w, r, p, h) <==> Entry(w, r, p) == Some(h)
  {
    hide Inv, FindEntry, OnePerCtx;
    if r in w.requests {
      ArrayIsOnePerCtx(w, r);
      forall h: Ref | Holds(w, r, p, h)
        ensures Entry(w, r, p) == Some(h)
      {
        FindsHeld(w.hctxs, w.requests[r], p, h);
      }
    }
  }

  lemma ArrayIsOnePerCtx(w: World, r: ReqId)
    requires Inv(w) && r in w.requests
    ensures OnePerCtx(w.hctxs, w.requests[r])
  {
    hide Obeyed, Needed, Quiet, PluginQueues, ChildQueues, Pools, Handles, Ids, Counters, Addresses;
  }

  /** The id a new HTTP context of p has: that of the record to be used again, or the next of the plugin. */
  function NewHttpId(w: World, p: Ref): nat
    requires Linked(w, p)
  {
    var q := w.pctxs[p].free;
    if q != [] then
      assert q[|q| - 1] in q;
      w.hctxs[q[|q| - 1]].id
    else (w.plugins[w.pctxs[p].plugin].curCtxId + 1) % 0x1_0000_0000
  }

  /** What a lookup announces. */
  function Announced(w: World, p: Ref, r: ReqId, o: FetchAnswers): seq<What>
    requires Linked(w, p)
  {
    if Entry(w, r, p).None? && HasRoom(w, p, r, o) then
      [ContextCreate(NewHttpId(w, p), w.pctxs[p].id, o.createRc == 0)]
    else []
  }

  lemma TakenHttp(w: World, p: Ref)
    requires Linked(w, p)
    ensures var w' := TakeHttp(w, p);
      && p in w'.pctxs && w'.pctxs[p].free != [] && Last(w'.pctxs[p].free) in w'.hctxs
      && w'.hctxs[Last(w'.pctxs[p].free)].id == NewHttpId(w, p)
      && w'.pctxs[p].id == w.pctxs[p].id && w'.pctxs[p].plugin == w.pctxs[p].plugin && w'.calls == w.calls
  {
  }

  /** The array of r ends with an HTTP context under p with this id. */
  predicate IsNew(w: World, r: ReqId, p: Ref, id: nat) {
    && r in w.requests && w.requests[r] != [] && Last(w.requests[r]) in w.hctxs
    && w.hctxs[Last(w.requests[r])].id == id && w.hctxs[Last(w.requests[r])].parent == p
  }

  lemma CreateHttpMakes(w: World, p: Ref, r: ReqId, o: FetchAnswers)
    requires Linked(w, p) && r in w.requests && (w.pctxs[p].free != [] || o.recordOk)
    ensures var w' := CreateHttp(w, p, r, o);
      && r in w'.requests && w'.touched == w.touched
      && Makes(w, w', w.pctxs[p].plugin, [ContextCreate(NewHttpId(w, p), w.pctxs[p].id, o.createRc == 0)])
      && (o.createRc == 0 ==>
            IsNew(w', r, p, NewHttpId(w, p)))
  {
    hide TakeHttp, Emit, Makes;
    TakenHttp(w, p);
    TakenIsChild(w, p);
    Holding.TakeHttpEntries(w, p);
    var w1 := TakeHttp(w, p);
    var what := ContextCreate(NewHttpId(w, p), w.pctxs[p].id, o.createRc == 0);
    EmitEntries(w1, w.pctxs[p].plugin, what);
    EmitPctxs(w1, w.pctxs[p].plugin, what);
    EmitCalls(w, w1, w.pctxs[p].plugin, what);
    MakesOne(w1, AnnounceHttp(w1, p, o.createRc == 0), w.pctxs[p].plugin, what);
    MakesFrom(w, w1, AnnounceHttp(w1, p, o.createRc == 0), CreateHttp(w, p, r, o), w.pctxs[p].plugin, [what]);
  }

  lemma NothingCreated(w: World, p: Ref, r: ReqId, o: FetchAnswers)
    requires CanServe(w, p) && r in w.requests && w.pctxs[p].free == [] && !o.recordOk
    ensures CreateHttp(w, p, r, o) == w
  {
  }

  lemma EmitPctxs(w: World, pl: Ref, what: What)
    ensures Emit(w, pl, what).pctxs == w.pctxs
  {
  }

  lemma EmitCalls(w: World, w1: World, pl: Ref, what: What)
    requires w1.calls == w.calls
    ensures w.calls <= Emit(w1, pl, what).calls
  {
  }

  lemma MakesFrom(w: World, w1: World, w2: World, w3: World, pl: Ref, whats: seq<What>)
    requires w1.calls == w.calls && Makes(w1, w2, pl, whats) && w3.calls == w2.calls
    ensures Makes(w, w3, pl, whats)
  {
  }

  lemma FetchMakes(w: World, p: Ref, r: ReqId, o: FetchAnswers)
    requires Linked(w, p)
    ensures var w' := Lifecycle.Fetch(w, p, r, o);
      && Makes(w, w', w.pctxs[p].plugin, Announced(w, p, r, o))
      && (r in w'.touched <==> r in w.touched || o.moduleCtxOk)
      && (r in w'.requests <==> r in w.requests || ((r in w.touched || o.moduleCtxOk) && o.arrayOk))
      && (Entry(w, r, p).Some? ==> Entry(w', r, p) == Entry(w, r, p))
      && (Entry(w, r, p).None? && Gets(w, p, r, o) ==> IsNew(w', r, p, NewHttpId(w, p)))
  {
    hide CreateHttp, FindEntry, Makes;
    NoEntries(w.hctxs, p);
    MakesNothing(w, w, w.pctxs[p].plugin);
    MakesNothing(w, w.(touched := w.touched + {r}), w.pctxs[p].plugin);
    MakesNothing(w, AddArray(w.(touched := w.touched + {r}), r), w.pctxs[p].plugin);
    var w1 := w.(touched := w.touched + {r});
    if (r in w.touched || o.moduleCtxOk) && (r in w.requests || o.arrayOk) && Entry(w1, r, p).None? {
      ArrayIsEmpty(w1, p, r);
      var w2 := AddArray(w1, r);
      if w.pctxs[p].free != [] || o.recordOk {
        CreateHttpMakes(w2, p, r, o);
        MakesFrom(w, w2, CreateHttp(w2, p, r, o), CreateHttp(w2, p, r, o), w.pctxs[p].plugin, Announced(w, p, r, o));
      } else {
        NothingCreated(w2, p, r, o);
      }
    }
  }

  lemma ArrivedAnnounces(w: World, p: Ref, r: ReqId, body: Option<Bytes>, o: FetchAnswers)
    requires Linked(w, p)
    ensures var w' := Arrive(w, p, body);
      && Linked(w', p) && w'.calls == w.calls && w'.pctxs[p].plugin == w.pctxs[p].plugin
      && Entry(w', r, p) == Entry(w, r, p) && (HasRoom(w', p, r, o) <==> HasRoom(w, p, r, o))
      && Announced(w', p, r, o) == Announced(w, p, r, o) && NewHttpId(w', p) == NewHttpId(w, p)
  {
    hide FindEntry;
    ArrivedIsLinked(w, p, body);
  }

  /** What an entry does once its state is current: the lookup, and the call if there is a context. */
  lemma ServedCalls(w: World, p: Ref, r: ReqId, body: Option<Bytes>, o: FetchAnswers, what: What, w': World)
    requires Linked(w, p)
    requires var w2 := Lifecycle.Fetch(Arrive(w, p, body), p, r, o);
             w' == ClearState(if Entry(w2, r, p).Some? then Emit(w2, w.pctxs[p].plugin, what) else w2)
    ensures var w2 := Lifecycle.Fetch(Arrive(w, p, body), p, r, o);
      && Makes(w, w', w.pctxs[p].plugin, Announced(w, p, r, o) + if Entry(w2, r, p).Some? then [what] else [])
      && SameHolders(w2, w')
  {
    hide Lifecycle.Fetch, Arrive, ClearState, Emit, Entry, Makes, Announced;
    var w1 := Arrive(w, p, body);
    ArrivedAnnounces(w, p, r, body, o);
    FetchMakes(w1, p, r, o);
    var w2 := Lifecycle.Fetch(w1, p, r, o);
    var pl := w.pctxs[p].plugin;
    LeaveEntries(w2, pl, what);
    ClearCalls(w2);
    ClearCalls(Emit(w2, pl, what));
    MakesNothing(w, w1, pl);
    MakesTrans(w, w1, w2, pl, [], Announced(w1, p, r, o));
    assert [] + Announced(w1, p, r, o) == Announced(w1, p, r, o);
    if Entry(w2, r, p).Some? {
      MakesOne(w2, w', pl, what);
      MakesTrans(w, w2, w', pl, Announced(w1, p, r, o), [what]);
    } else {
      MakesNothing(w2, w', pl);
      MakesTrans(w, w2, w', pl, Announced(w1, p, r, o), []);
    }
  }

  /** What the request holds in the end, from what it held and what was announced. */
  lemma HeldInTheEnd(w: World, p: Ref, r: ReqId, body: Option<Bytes>, o: FetchAnswers, w': World)
    requires Inv(w) && Inv(w') && Linked(w, p)
    requires SameHolders(Lifecycle.Fetch(Arrive(w, p, body), p, r, o), w')
    ensures var w2 := Lifecycle.Fetch(Arrive(w, p, body), p, r, o);
      && (forall h: Ref :: Holds(w', r, p, h) ==>
            && Entry(w2, r, p) == Some(h) && EntryId(w2, r, p) == w'.hctxs[h].id
            && Announced(w, p, r, o)
               == if Holds(w, r, p, h) then [] else [ContextCreate(w'.hctxs[h].id, w.pctxs[p].id, true)])
      && (HoldsNone(w', r, p) ==>
            && Entry(w2, r, p).None?
            && Announced(w, p, r, o)
               == if HasRoom(w, p, r, o) then [ContextCreate(NewHttpId(w, p), w.pctxs[p].id, false)] else [])
  {
    hide Inv, Lifecycle.Fetch, Arrive, HasRoom, NewHttpId, FindEntry;
    var w1 := Arrive(w, p, body);
    ArrivedAnnounces(w, p, r, body, o);
    FetchMakes(w1, p, r, o);
    ArrivedIsLinked(w, p, body);
    FetchEntries(w1, p, r, o);
    var w2 := Lifecycle.Fetch(w1, p, r, o);
    SameHoldersSameEntries(w2, w');
    HeldIsEntry(w, r, p);
    HeldIsEntry(w', r, p);
    if Entry(w, r, p).None? && Gets(w1, p, r, o) {
      assert Holds(w', r, p, Last(w2.requests[r]));
    }
  }

  /** A phase of request r under the plugin context p calls only the guest of p's plugin. If the request
      has its HTTP context under p already, the guest is called once, with the id of that context; if one
      is made, it is announced with its id, as a child of p, and then called with that id; and if there is
      none in the end, the guest is not called for the phase. `body` is what the phase was entered with. */
  lemma PhaseCalls(w: World, p: Ref, r: ReqId, body: Option<Bytes>, o: FetchAnswers)
    requires Inv(w) && Runs.Enabled(w, Serve(p, r, body, o))
    ensures Linked(w, p)
    ensures var w' := Runs.Next(w, Serve(p, r, body, o)); var pl := w.pctxs[p].plugin;
      && (forall h: Ref :: Holds(w', r, p, h) ==>
            Makes(w, w', pl, (if Holds(w, r, p, h) then [] else [ContextCreate(w'.hctxs[h].id, w.pctxs[p].id, true)])
                             + [OnStream(w'.hctxs[h].id, body)]))
      && (HoldsNone(w', r, p) ==>
            Makes(w, w', pl,
                  if HasRoom(w, p, r, o) then [ContextCreate(NewHttpId(w, p), w.pctxs[p].id, false)] else []))
  {
    hide Inv, Lifecycle.Fetch, Arrive, ClearState, Emit, Entry, Makes, Linked, HasRoom, NewHttpId, Announced,
         SameHolders;
    InvLinks(w, p);
    HandleServes(w, p);
    var w2 := Lifecycle.Fetch(Arrive(w, p, body), p, r, o);
    var w' := Runs.Next(w, Serve(p, r, body, o));
    EntryHasId(w2, r, p);
    ServedCalls(w, p, r, body, o, OnStream(EntryId(w2, r, p), body), w');
    HeldInTheEnd(w, p, r, body, o, w');
    assert forall a: seq<What> :: a + [] == a;
  }

  /** The callback of a callout calls the guest with the id of the plugin context. */
  lemma CallbackCalls(w: World, p: Ref, r: ReqId, o: FetchAnswers)
    requires Inv(w) && Runs.Enabled(w, ServeCallResponse(p, r, o))
    ensures Linked(w, p)
    ensures var w' := Runs.Next(w, ServeCallResponse(p, r, o)); var pl := w.pctxs[p].plugin;
      && (forall h: Ref :: Holds(w', r, p, h) ==>
            Makes(w, w', pl, (if Holds(w, r, p, h) then [] else [ContextCreate(w'.hctxs[h].id, w.pctxs[p].id, true)])
                             + [OnHttpCallResponse(w.pctxs[p].id)]))
      && (HoldsNone(w', r, p) ==>
            Makes(w, w', pl,
                  if HasRoom(w, p, r, o) then [ContextCreate(NewHttpId(w, p), w.pctxs[p].id, false)] else []))
  {
    hide Inv, Lifecycle.Fetch, Arrive, ClearState, Emit, Entry, Makes, Linked, HasRoom, NewHttpId, Announced,
         SameHolders;
    InvLinks(w, p);
    HandleServes(w, p);
    var w' := Runs.Next(w, ServeCallResponse(p, r, o));
    ServedCalls(w, p, r, None, o, OnHttpCallResponse(w.pctxs[p].id), w');
    HeldInTheEnd(w, p, r, None, o, w');
    assert forall a: seq<What> :: a + [] == a;
  }

  /** Of the calls between w and w' at most the last is for the phase, and it carries the id of the HTTP
      context that r has under p in the end. */
  ghost predicate PhaseIds(w: World, w': World, p: Ref, r: ReqId, body: Option<Bytes>) {
    && w.calls <= w'.calls && p in w.pctxs
    && forall i :: |w.calls| <= i < |w'.calls| && w'.calls[i].what.OnStream? ==>
         && w'.calls[i].plugin == w.pctxs[p].plugin && w'.calls[i].what.sent == body && i == |w'.calls| - 1
         && exists h: Ref :: Holds(w', r, p, h) && w'.calls[i].what.id == w'.hctxs[h].id
  }

  lemma MadeAt(w: World, w': World, pl: Ref, whats: seq<What>)
    requires Makes(w, w', pl, whats)
    ensures w.calls <= w'.calls && |w'.calls| == |w.calls| + |whats|
    ensures forall i :: |w.calls| <= i < |w'.calls| ==>
              w'.calls[i].plugin == pl && w'.calls[i].what == whats[i - |w.calls|]
  {
    var made := w'.calls[|w.calls|..];
    forall i | |w.calls| <= i < |w'.calls|
      ensures w'.calls[i].plugin == pl && w'.calls[i].what == whats[i - |w.calls|]
    {
      assert made[i - |w.calls|] == w'.calls[i] && w'.calls[i] in made;
      assert Whats(made)[i - |w.calls|] == made[i - |w.calls|].what;
    }
  }

  lemma PhaseHasItsId(w: World, p: Ref, r: ReqId, body: Option<Bytes>, o: FetchAnswers)
    requires Inv(w) && Runs.Enabled(w, Serve(p, r, body, o))
    ensures PhaseIds(w, Runs.Next(w, Serve(p, r, body, o)), p, r, body)
  {
    hide Inv, Runs.Next, Linked, HasRoom, NewHttpId, Makes, Holds;
    PhaseCalls(w, p, r, body, o);
    HandleServes(w, p);
    var w', pl := Runs.Next(w, Serve(p, r, body, o)), w.pctxs[p].plugin;
    if HoldsNone(w', r, p) {
      MadeAt(w, w', pl, if HasRoom(w, p, r, o) then [ContextCreate(NewHttpId(w, p), w.pctxs[p].id, false)] else []);
    } else {
      var h: Ref :| Holds(w', r, p, h);
      HeldIsThere(w', r, p, h);
      MadeAt(w, w', pl, (if Holds(w, r, p, h) then [] else [ContextCreate(w'.hctxs[h].id, w.pctxs[p].id, true)])
                        + [OnStream(w'.hctxs[h].id, body)]);
    }
  }

  lemma HeldIsThere(w: World, r: ReqId, p: Ref, h: Ref)
    requires Holds(w, r, p, h)
    ensures h in w.hctxs
  {
  }

  /** In every run each phase that a guest is called for carries the id of the HTTP context that its own
      request has under the plugin context, which is the plugin's own. */
  lemma PhasesCarryTheirOwnId(ss: seq<Runs.Step>, k: nat)
    requires Runs.Legal(ss) && k < |ss| && ss[k].Serve?
    ensures Runs.Legal(ss[..k]) && Runs.Legal(ss[..k + 1]) && Run(ss[..k + 1]).calls <= Run(ss).calls
    ensures var w, w' := Run(ss[..k]), Run(ss[..k + 1]); var Serve(p, r, body, o) := ss[k];
      PhaseIds(w, w', p, r, body)
  {
    hide Inv, Runs.Next, Runs.Enabled, Holds, PhaseIds;
    CallsGrow(ss, k);
    CallsGrow(ss, k + 1);
    assert ss[..k + 1][..k] == ss[..k];
    var w, w' := Run(ss[..k]), Run(ss[..k + 1]);
    PhaseHasItsId(w, ss[k].p, ss[k].r, ss[k].body, ss[k].fetch);
  }

  // ------------------------------------------------------------------------------------
  // Configurations and handles

  /** The record that a configuration works on, */
  function ConfiguredRecord(w: World, pl: Ref): Ref
    requires pl in w.plugins
  {
    var q := w.plugins[pl].free;
    if q != [] then q[|q| - 1] else w.next
  }

  /** and its id. */
  function ConfiguredId(w: World, pl: Ref): nat
    requires pl in w.plugins && forall p :: p in w.plugins[pl].free ==> p in w.pctxs
  {
    var q := w.plugins[pl].free;
    if q != [] then
      assert q[|q| - 1] in q;
      w.pctxs[q[|q| - 1]].id
    else (w.plugins[pl].curCtxId + 1) % 0x1_0000_0000
  }

  /** All of a configuration that can fail succeeds. */
  predicate Succeeds(w: World, pl: Ref, o: ConfigureAnswers)
    requires pl in w.plugins
  {
    && (w.plugins[pl].free != [] || o.recordOk) && o.createRc == 0 && o.poolOk && o.stateOk && o.configureRc > 0
  }

  /** The calls that follow a successful proxy_on_context_create. */
  function AfterCreation(id: nat, o: ConfigureAnswers): seq<What> {
    if !o.poolOk || !o.stateOk then [OnDone(id), OnDelete(id)]
    else if o.configureRc <= 0 then [OnConfigure(id), OnDone(id), OnDelete(id)]
    else [OnConfigure(id)]
  }

  /** The context p is in use, has no HTTP context in use, and its plugin has a handle. */
  predicate Releasable(w: World, pl: Ref, p: Ref) {
    && p in w.pctxs && w.pctxs[p].plugin == pl && w.pctxs[p].occupied == []
    && pl in w.plugins && !w.plugins[pl].done
  }

  lemma ReleaseMakes(w: World, w': World, pl: Ref, id: nat)
    requires w'.calls == Emit(Emit(w, pl, OnDone(id)), pl, OnDelete(id)).calls
    ensures Makes(w, w', pl, [OnDone(id), OnDelete(id)])
  {
    hide Makes;
    var w1 := Emit(w, pl, OnDone(id));
    MakesOne(w, w1, pl, OnDone(id));
    MakesOne(w1, Emit(w1, pl, OnDelete(id)), pl, OnDelete(id));
    MakesTrans(w, w1, Emit(w1, pl, OnDelete(id)), pl, [OnDone(id)], [OnDelete(id)]);
    assert [OnDone(id)] + [OnDelete(id)] == [OnDone(id), OnDelete(id)];
    MakesSame(w, Emit(w1, pl, OnDelete(id)), w', pl, [OnDone(id), OnDelete(id)]);
  }

  lemma DeleteCtxMakes(w: World, pl: Ref, p: Ref)
    requires Releasable(w, pl, p)
    ensures Makes(w, DeleteCtx(w, p), pl, [OnDone(w.pctxs[p].id), OnDelete(w.pctxs[p].id)])
    ensures DeleteCtx(w, p).ctxHandles == w.ctxHandles - {p}
  {
    hide Makes;
    RetiredCalls(MarkCtx(w, p), p);
    ReleaseMakes(w, DeleteCtx(w, p), pl, w.pctxs[p].id);
  }

  lemma RetiredCalls(w: World, p: Ref)
    requires OwnedCtx(w, p)
    ensures var pl, id := w.pctxs[p].plugin, w.pctxs[p].id;
      RetireCtx(w, p).calls == Emit(Emit(w, pl, OnDone(id)), pl, OnDelete(id)).calls
  {
  }

  lemma ConfiguringMakes(w: World, pl: Ref, p: Ref, garbage: Option<Bytes>)
    requires Releasable(w, pl, p)
    ensures Makes(w, Configuring(w, p, garbage), pl, [OnConfigure(w.pctxs[p].id)])
    ensures Releasable(Configuring(w, p, garbage), pl, p)
    ensures Configuring(w, p, garbage).pctxs[p].id == w.pctxs[p].id
    ensures Configuring(w, p, garbage).ctxHandles == w.ctxHandles
  {
    hide Makes;
    var w1 := w.(pctxs := w.pctxs[p := w.pctxs[p].(body := garbage)], curState := Some(OfCtx(pl, p)));
    MakesOne(w1, Configuring(w, p, garbage), pl, OnConfigure(w.pctxs[p].id));
    MakesFrom(w, w1, Configuring(w, p, garbage), Configuring(w, p, garbage), pl, [OnConfigure(w.pctxs[p].id)]);
  }

  lemma ConfiguredMakes(w: World, pl: Ref, p: Ref, o: ConfigureAnswers)
    requires Releasable(w, pl, p)
    ensures Makes(w, Configured(w, p, o), pl, AfterCreation(w.pctxs[p].id, o))
    ensures Configured(w, p, o).ctxHandles
         == if o.poolOk && o.stateOk && o.configureRc > 0 then w.ctxHandles else w.ctxHandles - {p}
  {
    hide Makes, Configuring, DeleteCtx;
    var id := w.pctxs[p].id;
    if !o.poolOk || !o.stateOk {
      DeleteCtxMakes(w, pl, p);
    } else {
      ConfiguringMakes(w, pl, p, o.garbage);
      var w1 := Configuring(w, p, o.garbage);
      if o.configureRc <= 0 {
        DeleteCtxMakes(w1, pl, p);
        MakesTrans(w, w1, DeleteCtx(w1, p), pl, [OnConfigure(id)], [OnDone(id), OnDelete(id)]);
        assert [OnConfigure(id)] + [OnDone(id), OnDelete(id)] == [OnConfigure(id), OnDone(id), OnDelete(id)];
      }
    }
  }

  lemma AnnounceMakes(w: World, pl: Ref, ok: bool)
    requires Spare(w, pl)
    ensures Makes(w, AnnounceCtx(w, pl, ok), pl, [ContextCreate(w.pctxs[Last(w.plugins[pl].free)].id, 0, ok)])
  {
    hide Makes;
    var w1 := SetState(w, OfPlugin(pl));
    var what := ContextCreate(w.pctxs[Last(w.plugins[pl].free)].id, 0, ok);
    MakesOne(w1, AnnounceCtx(w, pl, ok), pl, what);
    MakesFrom(w, w1, AnnounceCtx(w, pl, ok), AnnounceCtx(w, pl, ok), pl, [what]);
  }

  lemma PlacedCtx(w: World, pl: Ref, ok: bool, poolOk: bool)
    requires Spare(w, pl) && !w.plugins[pl].done && w.pctxs[Last(w.plugins[pl].free)].occupied == []
    ensures var w1 := AnnounceCtx(w, pl, ok); var p := Last(w.plugins[pl].free);
      && Spare(w1, pl) && RotateCtx(w1, pl).calls == w1.calls && RotateCtx(w1, pl).ctxHandles == w.ctxHandles
      && var w2 := ActivateCtx(w1, pl, poolOk);
         w2.calls == w1.calls && Releasable(w2, pl, p) && w2.pctxs[p].id == w.pctxs[p].id
         && w2.ctxHandles == w.ctxHandles + {p}
  {
  }

  lemma CreatedMakes(w: World, pl: Ref, o: ConfigureAnswers)
    requires Spare(w, pl) && !w.plugins[pl].done && w.pctxs[Last(w.plugins[pl].free)].occupied == []
    requires Last(w.plugins[pl].free) !in w.ctxHandles
    ensures var p := Last(w.plugins[pl].free); var id := w.pctxs[p].id;
      && Makes(w, Created(w, pl, o), pl,
               [ContextCreate(id, 0, o.createRc == 0)] + if o.createRc == 0 then AfterCreation(id, o) else [])
      && Created(w, pl, o).ctxHandles
         == w.ctxHandles
            + if o.createRc == 0 && o.poolOk && o.stateOk && o.configureRc > 0 then {p} else {}
  {
    hide Makes, AnnounceCtx, RotateCtx, ActivateCtx, Configured, AfterCreation;
    var p := Last(w.plugins[pl].free);
    var id := w.pctxs[p].id;
    var ok := o.createRc == 0;
    var w1 := AnnounceCtx(w, pl, ok);
    AnnounceMakes(w, pl, ok);
    PlacedCtx(w, pl, ok, o.poolOk);
    if ok {
      var w2 := ActivateCtx(w1, pl, o.poolOk);
      MakesSame(w, w1, w2, pl, [ContextCreate(id, 0, ok)]);
      ConfiguredMakes(w2, pl, p, o);
      MakesTrans(w, w2, Configured(w2, p, o), pl, [ContextCreate(id, 0, ok)], AfterCreation(id, o));
    } else {
      MakesSame(w, w1, RotateCtx(w1, pl), pl, [ContextCreate(id, 0, ok)]);
      assert [ContextCreate(id, 0, ok)] + [] == [ContextCreate(id, 0, ok)];
    }
  }

  /** What is known of a plugin that has a handle and of the record to be configured. */
  lemma TakenIsIdle(w: World, pl: Ref)
    requires Inv(w) && pl in w.pluginHandles
    ensures pl in w.plugins && forall p :: p in w.plugins[pl].free ==> p in w.pctxs && w.pctxs[p].plugin == pl
    ensures var w' := TakeCtx(w, pl);
      && Spare(w', pl) && !w'.plugins[pl].done && w'.calls == w.calls && w'.ctxHandles == w.ctxHandles
      && Last(w'.plugins[pl].free) == ConfiguredRecord(w, pl)
      && w'.pctxs[ConfiguredRecord(w, pl)].id == ConfiguredId(w, pl)
      && w'.pctxs[ConfiguredRecord(w, pl)].occupied == []
  {
    hide Obeyed, Needed, Quiet, Ids, Counters, Requests;
    HandleConfigures(w, pl);
    if w.plugins[pl].free != [] {
      var p := Last(w.plugins[pl].free);
      assert p in w.plugins[pl].free;
      MemberOrEmpty(w.pctxs[p].occupied);
    }
  }

  /** A configuration announces the record that is to be used again, or a new one, as a root; if the guest
      takes it, it is configured, unless there is no room for it, and it is given up again if it is not
      to be used. Its handle is returned if nothing fails. */
  lemma ConfigurationCalls(w: World, pl: Ref, o: ConfigureAnswers)
    requires Inv(w) && Runs.Enabled(w, ConfigurePlugin(pl, o))
    ensures pl in w.plugins && forall p :: p in w.plugins[pl].free ==> p in w.pctxs && w.pctxs[p].plugin == pl
    ensures var w' := Runs.Next(w, ConfigurePlugin(pl, o)); var id := ConfiguredId(w, pl);
      && Makes(w, w', pl,
               if w.plugins[pl].free == [] && !o.recordOk then []
               else if o.createRc != 0 then [ContextCreate(id, 0, false)]
               else [ContextCreate(id, 0, true)] + AfterCreation(id, o))
      && w'.ctxHandles == w.ctxHandles + if Succeeds(w, pl, o) then {ConfiguredRecord(w, pl)} else {}
  {
    hide Inv, Makes, Created, TakeCtx, AfterCreation;
    HandleConfigures(w, pl);
    TakenIsIdle(w, pl);
    SpareHasNoHandle(w, pl);
    var w1 := TakeCtx(w, pl);
    var id := ConfiguredId(w, pl);
    if w.plugins[pl].free == [] && !o.recordOk {
      MakesNothing(w, w, pl);
    } else {
      CreatedMakes(w1, pl, o);
      var whats := [ContextCreate(id, 0, o.createRc == 0)] + if o.createRc == 0 then AfterCreation(id, o) else [];
      MakesFrom(w, w1, Created(w1, pl, o), Created(w1, pl, o), pl, whats);
      assert [ContextCreate(id, 0, false)] + [] == [ContextCreate(id, 0, false)];
    }
  }

  /** Loading runs the start function, if there is one, and unloads the VM again if that fails or there is
      no room for the record. */
  lemma LoadCalls(w: World, o: LoadAnswers)
    requires Inv(w)
    ensures var w' := Runs.Next(w, LoadPlugin(o)); var ok := (o.hasStart ==> o.startRc == 0) && o.recordOk;
      && Makes(w, w', w.next, if !o.vmOk then [] else [Loaded(o.hasStart)] + if ok then [] else [Unloaded])
      && w'.pluginHandles == w.pluginHandles + if o.vmOk && ok then {w.next} else {}
  {
    hide Inv, Makes;
    var w' := Runs.Next(w, LoadPlugin(o));
    var w1 := Emit(w, w.next, Loaded(o.hasStart));
    MakesNothing(w, w, w.next);
    MakesOne(w, w1, w.next, Loaded(o.hasStart));
    assert [Loaded(o.hasStart)] + [] == [Loaded(o.hasStart)];
    if o.vmOk && !Starts(o) {
      MakesOne(w1, w', w.next, Unloaded);
      MakesTrans(w, w1, w', w.next, [Loaded(o.hasStart)], [Unloaded]);
    } else if o.vmOk {
      MakesSame(w, w1, w', w.next, [Loaded(o.hasStart)]);
    }
  }

  /** The finalizer of a plugin context lets it go if no child of it is in use, and with the last one of a
      plugin whose own finalizer has run its VM is unloaded. */
  lemma FinalizerCalls(w: World, p: Ref)
    requires Inv(w) && Runs.Enabled(w, FinalizeCtx(p))
    ensures p in w.pctxs && w.pctxs[p].plugin in w.plugins
    ensures var id, pl := w.pctxs[p].id, w.pctxs[p].plugin;
      Makes(w, Runs.Next(w, FinalizeCtx(p)), pl,
            if w.pctxs[p].occupied != [] then []
            else [OnDone(id), OnDelete(id)]
                 + if w.plugins[pl].done && w.plugins[pl].occupied == [p] then [Unloaded] else [])
  {
    hide Makes, Obeyed, Needed, Quiet, Structure;
    HandleServes(w, p);
    var id, pl := w.pctxs[p].id, w.pctxs[p].plugin;
    var w1 := MarkCtx(w, p);
    MakesNothing(w, DeleteCtx(w, p).(calls := w.calls), pl);
    if w.pctxs[p].occupied == [] {
      var w2 := RetireCtx(w1, p);
      RetiredCalls(w1, p);
      ReleaseMakes(w, w2, pl, id);
      assert [OnDone(id), OnDelete(id)] + [] == [OnDone(id), OnDelete(id)];
      LastLeaves(w, pl, p);
      RetiredPlugin(w1, p);
      if w.plugins[pl].done && w.plugins[pl].occupied == [p] {
        MakesOne(w2, DeleteCtx(w, p), pl, Unloaded);
        MakesTrans(w, w2, DeleteCtx(w, p), pl, [OnDone(id), OnDelete(id)], [Unloaded]);
      }
    }
  }

  lemma RetiredPlugin(w: World, p: Ref)
    requires OwnedCtx(w, p)
    ensures var pl := w.pctxs[p].plugin;
      && pl in RetireCtx(w, p).plugins
      && RetireCtx(w, p).plugins[pl].occupied == Remove(w.plugins[pl].occupied, p)
  {
  }

  /** A queue without p is empty exactly when it consisted of p. */
  lemma LastLeaves(w: World, pl: Ref, p: Ref)
    requires Inv(w) && p in w.ctxHandles && p in w.pctxs && w.pctxs[p].plugin == pl
    ensures pl in w.plugins && (Remove(w.plugins[pl].occupied, p) == [] <==> w.plugins[pl].occupied == [p])
  {
    hide Obeyed, Needed, Quiet, ChildQueues, Pools, Requests, Ids, Counters, Addresses;
    assert p in w.plugins[pl].occupied;
  }

  /** The finalizer of a plugin unloads its VM if none of its contexts is in use. */
  lemma PluginFinalizerCalls(w: World, pl: Ref)
    requires Inv(w) && Runs.Enabled(w, FinalizePlugin(pl))
    ensures pl in w.plugins
    ensures Makes(w, Runs.Next(w, FinalizePlugin(pl)), pl, if w.plugins[pl].occupied == [] then [Unloaded] else [])
  {
    hide Inv, Makes;
    HandleConfigures(w, pl);
    MakesNothing(w, MarkPlugin(w, pl), pl);
    if w.plugins[pl].occupied == [] {
      MakesOne(MarkPlugin(w, pl), Unload(w, pl), pl, Unloaded);
      MakesFrom(w, MarkPlugin(w, pl), Unload(w, pl), Unload(w, pl), pl, [Unloaded]);
    }
  }

  /** Each turn of the cleanup of a request lets its next HTTP context go; with the last child of a plugin
      context whose finalizer has run that one goes, too, and then perhaps the plugin. */
  lemma TurnCalls(w: World, r: ReqId)
    requires Inv(w) && r in w.touched && r in w.requests && w.requests[r] != []
    ensures HasFirst(w, r)
    ensures var h := w.requests[r][0]; var p := w.hctxs[h].parent; var pl := w.pctxs[p].plugin;
      var id, parent := w.hctxs[h].id, w.pctxs[p].id;
      Makes(w, CleanupOne(w, r), pl,
            [OnDone(id), OnDelete(id)]
            + if !w.pctxs[p].done || w.pctxs[p].occupied != [h] then []
              else [OnDone(parent), OnDelete(parent)]
                   + if w.plugins[pl].done && w.plugins[pl].occupied == [p] then [Unloaded] else [])
  {
    hide Inv, Makes, Structure, RetireCtx, FreePlugin;
    CleanupOneKeeps(w, r);
    ChildLeaves(w, r);
    var h := w.requests[r][0];
    var p := w.hctxs[h].parent;
    var pl, id, parent := w.pctxs[p].plugin, w.hctxs[h].id, w.pctxs[p].id;
    var w1 := RetireHttp(w, r);
    var first: seq<What> := [OnDone(id), OnDelete(id)];
    RetiredChild(w, r);
    ReleaseMakes(w, w1, pl, id);
    assert first + [] == first;
    if w.pctxs[p].done && w.pctxs[p].occupied == [h] {
      var w2 := RetireCtx(w1, p);
      var second: seq<What> := [OnDone(parent), OnDelete(parent)];
      RetiredCalls(w1, p);
      RetiredPlugin(w1, p);
      ReleaseMakes(w1, w2, pl, parent);
      MakesTrans(w, w1, w2, pl, first, second);
      assert second + [] == second;
      if w.plugins[pl].done {
        Discards(w2, pl);
        if w.plugins[pl].occupied == [p] {
          MakesOne(w2, CleanupOne(w, r), pl, Unloaded);
          MakesTrans(w, w2, CleanupOne(w, r), pl, first + second, [Unloaded]);
          assert first + second + [Unloaded] == first + (second + [Unloaded]);
        } else {
          MakesSame(w, w2, CleanupOne(w, r), pl, first + second);
        }
      }
    }
  }

  lemma Discards(w: World, pl: Ref)
    requires pl in w.plugins
    ensures FreePlugin(w, pl).calls == if w.plugins[pl].occupied == [] then Emit(w, pl, Unloaded).calls else w.calls
  {
  }

  lemma RetiredChild(w: World, r: ReqId)
    requires HasFirst(w, r)
    ensures var h := w.requests[r][0]; var p := w.hctxs[h].parent; var pl, id := w.pctxs[p].plugin, w.hctxs[h].id;
      var w' := RetireHttp(w, r);
      && w'.calls == Emit(Emit(w, pl, OnDone(id)), pl, OnDelete(id)).calls && w'.plugins == w.plugins
      && OwnedCtx(w', p) && w'.pctxs[p].plugin == pl && w'.pctxs[p].id == w.pctxs[p].id
      && w'.pctxs[p].occupied == Remove(w.pctxs[p].occupied, h) && w'.pctxs[p].done == w.pctxs[p].done
  {
  }

  /** The queues that the first entry of a request's array is in. */
  lemma ChildLeaves(w: World, r: ReqId)
    requires Inv(w) && HasFirst(w, r)
    ensures var h := w.requests[r][0]; var p := w.hctxs[h].parent; var pl := w.pctxs[p].plugin;
      && (Remove(w.pctxs[p].occupied, h) == [] <==> w.pctxs[p].occupied == [h])
      && (Remove(w.plugins[pl].occupied, p) == [] <==> w.plugins[pl].occupied == [p])
  {
    hide Obeyed, Needed, Quiet, Ids, Counters, Addresses;
    var h := w.requests[r][0];
    var p := w.hctxs[h].parent;
    assert h in w.requests[r];
    assert h in w.pctxs[p].occupied;
    assert p in w.plugins[w.pctxs[p].plugin].occupied;
  }
}
