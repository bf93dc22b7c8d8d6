/**
 The records of the module and the callout protocol in one run. Each step of Lua or nginx is a step
 of Lifecycle, of Protocol, or of both, and what the allocators and the guest answer is the same in
 both. The HTTP contexts that Protocol speaks of are then the live records of Lifecycle, and the
 callback of a callout goes to one of them.
 */
module Together {
  import opened Common
  import opened Queues
  import opened Abi
  import opened Lifecycle
  import opened Invariant
  import opened Runs
  import opened StateCoherence
  import opened Dangling
  import opened Holding
  import Protocol
  import ProtocolGuarantees
  import DriverGuarantees

  /** A step of both models. `drives` tells the first turn of a driver from a phase that runs outside of
      one; `used` says that the request has a module context, so that its cleanup handler runs. */
  datatype Step =
    | OwnStep(step: Runs.Step)
    | Begin(r: ReqId)
    | Phase(p: Ref, r: ReqId, body: Option<Bytes>, fetch: FetchAnswers, drives: bool,
            creation: Protocol.Creation, run: Protocol.Run)
    | Callback(p: Ref, r: ReqId, answered: bool, fetch: FetchAnswers,
               creation: Protocol.Creation, run: Protocol.Run)
    | End(r: ReqId, used: bool)

  function ModuleSteps(t: Step): seq<Runs.Step> {
    match t
    case OwnStep(step) => [step]
    case Begin(_) => []
    case Phase(p, r, body, o, _, _, _) => [Serve(p, r, body, o)]
    case Callback(p, r, _, o, _, _) => [ServeCallResponse(p, r, o)]
    case End(r, used) => if used then [EndRequest(r)] else []
  }

  function DriverSteps(t: Step): seq<Protocol.Step> {
    match t
    case OwnStep(_) => []
    case Begin(r) => [Protocol.Begin(r)]
    case Phase(p, r, _, _, drives, c, run) =>
      [if drives then Protocol.Request_(r, p, c, run) else Protocol.Observe(r, p, c, run)]
    case Callback(_, r, answered, _, c, run) => [Protocol.Response(r, answered, c, run)]
    case End(r, _) => [Protocol.Destroy(r)]
  }

  function ModulePart(ts: seq<Step>): seq<Runs.Step> {
    if ts == [] then [] else ModulePart(ts[..|ts| - 1]) + ModuleSteps(ts[|ts| - 1])
  }

  function DriverPart(ts: seq<Step>): seq<Protocol.Step> {
    if ts == [] then [] else DriverPart(ts[..|ts| - 1]) + DriverSteps(ts[|ts| - 1])
  }

  /** The allocators have room for a new HTTP context of r under p. */
  predicate HasRoom(w: World, p: Ref, r: ReqId, o: FetchAnswers)
    requires p in w.pctxs
  {
    && (r in w.touched || o.moduleCtxOk) && (r in w.requests || o.arrayOk)
    && (w.pctxs[p].free != [] || o.recordOk)
  }

  predicate Gets(w: World, p: Ref, r: ReqId, o: FetchAnswers)
    requires p in w.pctxs
  {
    HasRoom(w, p, r, o) && o.createRc == NGX_OK
  }

  /** Where an HTTP context is made, the answers of the allocators and of the guest are the same in
      both. */
  predicate SameAnswers(w: World, p: Ref, r: ReqId, o: FetchAnswers, c: Protocol.Creation)
    requires p in w.pctxs
  {
    Entry(w, r, p).None? ==>
      (c.Create? <==> HasRoom(w, p, r, o)) && (c.Create? ==> (c.ok <==> o.createRc == NGX_OK))
  }

  /** The step can be taken in both. A driver that is suspended keeps its plugin context from being
      finalized. */
  ghost predicate Enabled(w: World, s: Protocol.State, t: Step)
    requires Inv(w) && ProtocolGuarantees.Inv(s)
  {
    match t
    case OwnStep(step) =>
      && IsOwnStep(step) && Runs.Enabled(w, step)
      && (step.FinalizeCtx? ==>
            forall r :: r in s.reqs && s.reqs[r].phase.Waiting? ==> s.reqs[r].phase.ctx != step.p)
    case Begin(r) => Protocol.Enabled(s, Protocol.Begin(r))
    case Phase(p, r, _, o, drives, c, run) =>
      && p in w.ctxHandles && p in w.pctxs && SameAnswers(w, p, r, o, c)
      && Protocol.Enabled(s, if drives then Protocol.Request_(r, p, c, run) else Protocol.Observe(r, p, c, run))
    case Callback(p, r, answered, _, c, run) =>
      && p in w.ctxHandles
      && Protocol.Enabled(s, Protocol.Response(r, answered, c, run)) && s.reqs[r].phase.ctx == p
    case End(r, used) => r in s.reqs && (used <==> r in w.touched)
  }

  lemma EnabledInBoth(w: World, s: Protocol.State, t: Step)
    requires Inv(w) && ProtocolGuarantees.Inv(s) && Enabled(w, s, t)
    ensures forall x :: x in ModuleSteps(t) ==> Runs.Enabled(w, x)
    ensures forall x :: x in DriverSteps(t) ==> Protocol.Enabled(s, x)
  {
    hide Inv, ProtocolGuarantees.Inv;
  }

  lemma RunExtends(ss: seq<Runs.Step>, xs: seq<Runs.Step>)
    requires Runs.Legal(ss) && |xs| <= 1 && forall x :: x in xs ==> Runs.Enabled(Run(ss), x)
    ensures Runs.Legal(ss + xs)
    ensures Run(ss + xs) == if xs == [] then Run(ss) else Runs.Next(Run(ss), xs[0])
  {
    hide Inv, Runs.Next, Runs.Enabled;
    if xs == [] {
      assert ss + xs == ss;
    } else {
      assert xs[0] in xs;
      assert ss + xs == ss + [xs[0]];
      assert (ss + [xs[0]])[..|ss + [xs[0]]| - 1] == ss;
    }
  }

  lemma AfterExtends(ts: seq<Protocol.Step>, xs: seq<Protocol.Step>)
    requires ProtocolGuarantees.Legal(ts) && |xs| <= 1
    requires forall x :: x in xs ==> Protocol.Enabled(ProtocolGuarantees.After(ts), x)
    ensures ProtocolGuarantees.Legal(ts + xs)
    ensures var s := ProtocolGuarantees.After(ts);
      s.code < UINT32
      && ProtocolGuarantees.After(ts + xs) == if xs == [] then s else Protocol.Next(s, xs[0])
  {
    hide ProtocolGuarantees.Inv, Protocol.Next, Protocol.Enabled;
    DriverGuarantees.InvCode(ProtocolGuarantees.After(ts));
    if xs == [] {
      assert ts + xs == ts;
    } else {
      assert xs[0] in xs;
      assert ts + xs == ts + [xs[0]];
      assert (ts + [xs[0]])[..|ts + [xs[0]]| - 1] == ts;
    }
  }

  /** The two parts are runs of their own, as they are in every run of both (ContextsAgree). */
  ghost predicate BothLegal(ts: seq<Step>) {
    Runs.Legal(ModulePart(ts)) && ProtocolGuarantees.Legal(DriverPart(ts))
  }

  ghost function WorldOf(ts: seq<Step>): (w: World)
    requires BothLegal(ts)
    ensures Inv(w)
  {
    Run(ModulePart(ts))
  }

  ghost function StateOf(ts: seq<Step>): (s: Protocol.State)
    requires BothLegal(ts)
    ensures ProtocolGuarantees.Inv(s)
  {
    ProtocolGuarantees.After(DriverPart(ts))
  }

  /** A run of both. */
  ghost predicate Legal(ts: seq<Step>)
    decreases |ts|
  {
    ts == []
    || var init := ts[..|ts| - 1];
       Legal(init) && BothLegal(init) && Enabled(WorldOf(init), StateOf(init), ts[|ts| - 1])
  }

  lemma NothingIsLegal()
    ensures BothLegal([]) && WorldOf([]) == Empty && StateOf([]) == Protocol.Start
  {
  }

  /** What a step does to the two parts. */
  lemma StepSplits(ts: seq<Step>)
    requires ts != []
    requires var init := ts[..|ts| - 1];
             BothLegal(init) && Enabled(WorldOf(init), StateOf(init), ts[|ts| - 1])
    ensures var init, t := ts[..|ts| - 1], ts[|ts| - 1];
      && BothLegal(ts)
      && (ModuleSteps(t) == [] ==> WorldOf(ts) == WorldOf(init))
      && (ModuleSteps(t) != [] ==>
            Runs.Enabled(WorldOf(init), ModuleSteps(t)[0])
            && WorldOf(ts) == Runs.Next(WorldOf(init), ModuleSteps(t)[0]))
      && (DriverSteps(t) == [] ==> StateOf(ts) == StateOf(init))
      && (DriverSteps(t) != [] ==>
            StateOf(init).code < UINT32 && Protocol.Enabled(StateOf(init), DriverSteps(t)[0])
            && StateOf(ts) == Protocol.Next(StateOf(init), DriverSteps(t)[0]))
  {
    hide Inv, ProtocolGuarantees.Inv, Enabled, Runs.Enabled, Runs.Next, Protocol.Enabled, Protocol.Next, Runs.Legal,
         ProtocolGuarantees.Legal, Run, ProtocolGuarantees.After;
    var init, t := ts[..|ts| - 1], ts[|ts| - 1];
    EnabledInBoth(WorldOf(init), StateOf(init), t);
    RunExtends(ModulePart(init), ModuleSteps(t));
    AfterExtends(DriverPart(init), DriverSteps(t));
  }

  // ------------------------------------------------------------------------------------
  // What a phase does to the arrays of the module

  lemma {:induction false} FindSnoc(hctxs: map<Ref, HttpCtx>, a: seq<Ref>, h: Ref, p: Ref)
    requires h in hctxs
    ensures FindEntry(hctxs, a + [h], p).Some? <==> FindEntry(hctxs, a, p).Some? || hctxs[h].parent == p
  {
    if a != [] {
      FindSnoc(hctxs, a[1..], h, p);
      assert (a + [h])[1..] == a[1..] + [h];
    }
  }

  lemma {:induction false} FindSame(hctxs: map<Ref, HttpCtx>, hctxs2: map<Ref, HttpCtx>, a: seq<Ref>, p: Ref)
    requires forall h :: h in a ==> h in hctxs && h in hctxs2 && hctxs2[h] == hctxs[h]
    ensures FindEntry(hctxs2, a, p) == FindEntry(hctxs, a, p)
  {
    if a != [] {
      assert a[0] in a && forall h :: h in a[1..] ==> h in a;
      FindSame(hctxs, hctxs2, a[1..], p);
    }
  }

  /** What is known of a world when an HTTP context is looked up. */
  ghost predicate Linked(w: World, p: Ref) {
    && CanServe(w, p) && w.nextHttp !in w.hctxs
    && (forall h :: h in w.pctxs[p].free ==> w.hctxs[h].parent == p)
    && (forall r, h :: r in w.requests && h in w.requests[r] ==> h in w.hctxs)
    && (forall r :: r in w.requests ==> r in w.touched)
  }

  lemma InvLinks(w: World, p: Ref)
    requires Inv(w) && p in w.ctxHandles
    ensures Linked(w, p)
  {
    hide Obeyed, Needed, Quiet;
    HandleServes(w, p);
    NextHttpIsUnused(w);
  }

  /** The HTTP contexts of all requests, but for one, are as they were. */
  ghost predicate OthersStay(w: World, w': World, r: ReqId) {
    forall q, p :: q != r ==> Entry(w', q, p) == Entry(w, q, p)
  }

  lemma TakenIsChild(w: World, p: Ref)
    requires Linked(w, p)
    ensures var w' := TakeHttp(w, p);
      && p in w'.pctxs && w'.pctxs[p].free != [] && Last(w'.pctxs[p].free) in w'.hctxs
      && w'.hctxs[Last(w'.pctxs[p].free)].parent == p
  {
    if w.pctxs[p].free != [] {
      assert Last(w.pctxs[p].free) in w.pctxs[p].free;
    }
  }

  /** Arrays that are the same show the same contexts. */
  lemma SameArraySameEntry(w: World, w': World, q: ReqId, p: Ref)
    requires q in w.requests <==> q in w'.requests
    requires q in w.requests ==>
               w'.requests[q] == w.requests[q]
               && forall h :: h in w.requests[q] ==> h in w.hctxs && h in w'.hctxs && w'.hctxs[h] == w.hctxs[h]
    ensures Entry(w', q, p) == Entry(w, q, p)
  {
    if q in w.requests {
      FindSame(w.hctxs, w'.hctxs, w.requests[q], p);
    }
  }

  lemma CreateHttpEntries(w: World, p: Ref, r: ReqId, o: FetchAnswers)
    requires Linked(w, p) && r in w.requests
    ensures var w' := CreateHttp(w, p, r, o);
      && w'.touched == w.touched && w'.ctxHandles == w.ctxHandles
      && OthersStay(w, w', r)
      && forall q :: Entry(w', r, q).Some? <==>
           Entry(w, r, q).Some?
           || (q == p && (w.pctxs[p].free != [] || o.recordOk) && o.createRc == NGX_OK)
  {
    hide TakeHttp, AnnounceHttp, RotateHttp, ActivateHttp, FindEntry;
    var w' := CreateHttp(w, p, r, o);
    if w.pctxs[p].free != [] || o.recordOk {
      var w1 := TakeHttp(w, p);
      TakeHttpEntries(w, p);
      TakenIsChild(w, p);
      PlaceHttpEntries(w1, p, r, o.createRc == NGX_OK);
      forall q, p2 | q != r || o.createRc != NGX_OK
        ensures Entry(w', q, p2) == Entry(w, q, p2)
      {
        SameArraySameEntry(w, w', q, p2);
      }
      if o.createRc == NGX_OK {
        forall q
          ensures Entry(w', r, q).Some? <==> Entry(w, r, q).Some? || q == p
        {
          FindSnoc(w1.hctxs, w.requests[r], Last(w1.pctxs[p].free), q);
          FindSame(w.hctxs, w1.hctxs, w.requests[r], q);
        }
      }
    }
  }

  /** After a lookup the request has the contexts it had before, and one under p if one was made. */
  lemma FetchEntries(w: World, p: Ref, r: ReqId, o: FetchAnswers)
    requires Linked(w, p)
    ensures var w' := Lifecycle.Fetch(w, p, r, o);
      && w'.touched <= w.touched + {r} && w'.ctxHandles == w.ctxHandles
      && OthersStay(w, w', r)
      && forall q :: Entry(w', r, q).Some? <==> Entry(w, r, q).Some? || (q == p && Gets(w, p, r, o))
  {
    hide CreateHttp, FindEntry;
    NoEntries(w.hctxs, p);
    var w1 := w.(touched := w.touched + {r});
    if (r in w.touched || o.moduleCtxOk) && (r in w.requests || o.arrayOk) && Entry(w1, r, p).None? {
      ArrayIsEmpty(w1, p, r);
      CreateHttpEntries(AddArray(w1, r), p, r, o);
    }
  }

  lemma NoEntries(hctxs: map<Ref, HttpCtx>, p: Ref)
    ensures FindEntry(hctxs, [], p).None?
  {
  }

  lemma ArrayIsEmpty(w: World, p: Ref, r: ReqId)
    requires Linked(w, p) && r in w.touched
    ensures Linked(AddArray(w, r), p) && forall q, p2 :: Entry(AddArray(w, r), q, p2) == Entry(w, q, p2)
  {
  }

  /** The same of a whole phase and of a whole callback, which run the guest exactly when there is a
      context in the end. */
  ghost predicate Phased(w: World, w': World, p: Ref, r: ReqId, o: FetchAnswers)
    requires p in w.pctxs
  {
    && w'.touched <= w.touched + {r} && w'.ctxHandles == w.ctxHandles
    && OthersStay(w, w', r)
    && forall q :: Entry(w', r, q).Some? <==> Entry(w, r, q).Some? || (q == p && Gets(w, p, r, o))
  }

  lemma SameHoldersSameEntries(w: World, w': World)
    requires SameHolders(w, w')
    ensures forall q, p :: Entry(w', q, p) == Entry(w, q, p)
  {
  }

  lemma ArrivedIsLinked(w: World, p: Ref, body: Option<Bytes>)
    requires Linked(w, p)
    ensures Linked(Arrive(w, p, body), p) && SameHolders(w, Arrive(w, p, body))
    ensures forall r, o :: Gets(Arrive(w, p, body), p, r, o) <==> Gets(w, p, r, o)
  {
    hide Arrive;
    ArriveEntries(w, p, body);
  }

  lemma ServePhases(w: World, p: Ref, r: ReqId, body: Option<Bytes>, o: FetchAnswers)
    requires Inv(w) && p in w.ctxHandles
    ensures p in w.pctxs
    ensures Phased(w, Service(w, p, r, body, o), p, r, o) && Phased(w, CallResponse(w, p, r, o), p, r, o)
    ensures RunsStream(w, p, r, body, o) <==> Entry(w, r, p).Some? || Gets(w, p, r, o)
    ensures RunsCallResponse(w, p, r, o) <==> Entry(w, r, p).Some? || Gets(w, p, r, o)
  {
    hide Inv, Lifecycle.Fetch, Arrive, ClearState, Emit, Entry, Gets, Linked;
    HandleServes(w, p);
    InvLinks(w, p);
    ArrivedIsLinked(w, p, body);
    ArrivedIsLinked(w, p, None);
    SameHoldersSameEntries(w, Arrive(w, p, body));
    SameHoldersSameEntries(w, Arrive(w, p, None));
    FetchEntries(Arrive(w, p, body), p, r, o);
    FetchEntries(Arrive(w, p, None), p, r, o);
    var w1, w2 := Lifecycle.Fetch(Arrive(w, p, body), p, r, o), Lifecycle.Fetch(Arrive(w, p, None), p, r, o);
    Leaves(w1, w.pctxs[p].plugin, OnStream(EntryId(w1, r, p), body));
    Leaves(w2, w.pctxs[p].plugin, OnHttpCallResponse(w.pctxs[p].id));
    EntryHasId(w1, r, p);
  }

  function EntryId(w: World, r: ReqId, p: Ref): nat {
    var e := Entry(w, r, p);
    if e.Some? then w.hctxs[e.value].id else 0
  }

  lemma EntryHasId(w: World, r: ReqId, p: Ref)
    ensures Entry(w, r, p).Some? ==>
              Entry(w, r, p).value in w.hctxs && EntryId(w, r, p) == w.hctxs[Entry(w, r, p).value].id
  {
  }

  lemma Leaves(w: World, pl: Ref, what: What)
    ensures SameHolders(w, ClearState(w)) && SameHolders(w, ClearState(Emit(w, pl, what)))
    ensures forall q, p :: Entry(ClearState(w), q, p) == Entry(w, q, p)
    ensures forall q, p :: Entry(ClearState(Emit(w, pl, what)), q, p) == Entry(w, q, p)
  {
    hide ClearState, Emit;
    LeaveEntries(w, pl, what);
    SameHoldersSameEntries(w, ClearState(w));
    SameHoldersSameEntries(w, ClearState(Emit(w, pl, what)));
  }

  lemma EndSpares(w: World, r: ReqId)
    requires Inv(w) && r in w.touched
    ensures var w' := Cleanup(w, r);
      w'.touched == w.touched - {r} && w'.ctxHandles == w.ctxHandles && OthersStay(w, w', r)
  {
    hide Inv, Turns, FindEntry;
    var w' := Cleanup(w, r);
    if r in w.requests {
      CleanupIsTurns(w, r);
    }
    forall q, p | q != r
      ensures Entry(w', q, p) == Entry(w, q, p)
    {
      SameArrays(w, w', q);
      SameArraySameEntry(w, w', q, p);
    }
  }

  lemma SameArrays(w: World, w': World, q: ReqId)
    requires Inv(w) && Inv(w') && (q in w.requests <==> q in w'.requests)
    requires q in w.requests ==> w'.requests[q] == w.requests[q]
    requires forall h :: h in w'.hctxs ==> h in w.hctxs && w'.hctxs[h] == w.hctxs[h]
    ensures q in w.requests ==>
              forall h :: h in w.requests[q] ==> h in w.hctxs && h in w'.hctxs && w'.hctxs[h] == w.hctxs[h]
  {
    hide Inv, Structure;
    InvStructure(w);
    InvStructure(w');
    if q in w.requests {
      ArrayIsLive(w, q);
      ArrayIsLive(w', q);
    }
  }

  lemma OwnStepSpares(w: World, t: Runs.Step)
    requires Inv(w) && Runs.Enabled(w, t) && IsOwnStep(t)
    ensures var w' := Runs.Next(w, t);
      && w'.touched == w.touched && (forall q, p :: Entry(w', q, p) == Entry(w, q, p))
      && w.ctxHandles - (if t.FinalizeCtx? then {t.p} else {}) <= w'.ctxHandles
  {
    hide Inv, Runs.Next, FindEntry;
    OwnStepBystands(w, t);
    forall q, p
      ensures Entry(Runs.Next(w, t), q, p) == Entry(w, q, p)
    {
      SameArrays(w, Runs.Next(w, t), q);
      SameArraySameEntry(w, Runs.Next(w, t), q, p);
    }
  }

  // ------------------------------------------------------------------------------------
  // What a turn does to the contexts of the protocol

  lemma EntryAdds(s: Protocol.State, r: ReqId, p: Ref, c: Protocol.Creation, run: Protocol.Run)
    requires r in s.reqs && s.code < UINT32
    ensures var s' := Protocol.OnHttp(s, r, p, c, run).0;
      && r in s'.reqs && s'.reqs[r].phase == s.reqs[r].phase
      && s'.reqs[r].ctxs == if ProtocolGuarantees.Succeeds(s, r, p, c) then s.reqs[r].ctxs + {p} else s.reqs[r].ctxs
  {
    hide Protocol.OnHttp, Protocol.PerformAll;
    ProtocolGuarantees.EntryPerforms(s, r, p, c, run);
    ProtocolGuarantees.PerformAllKeepsPhase(s, r, p, ProtocolGuarantees.CallsOf(s, r, p, c, run));
    ProtocolGuarantees.OnHttpKeepsPhase(s, r, p, c, run);
    assert p in s.reqs[r].ctxs ==> s.reqs[r].ctxs + {p} == s.reqs[r].ctxs;
  }

  lemma DriveAdds(s: Protocol.State, r: ReqId, p: Ref, rc: int)
    requires r in s.reqs
    ensures var s' := Protocol.Drive(s, r, p, rc);
      && r in s'.reqs && s'.reqs[r].ctxs == s.reqs[r].ctxs
      && (s'.reqs[r].phase.Waiting? ==> s'.reqs[r].phase.ctx == p)
  {
  }

  /** A turn or a phase of r adds the context p if it succeeds; a driver that waits afterwards waits for p. */
  lemma PhaseAdds(s: Protocol.State, p: Ref, r: ReqId, drives: bool, c: Protocol.Creation, run: Protocol.Run)
    requires ProtocolGuarantees.Inv(s)
    requires Protocol.Enabled(s, if drives then Protocol.Request_(r, p, c, run) else Protocol.Observe(r, p, c, run))
    ensures s.code < UINT32
    ensures var s' :=
              Protocol.Next(s, if drives then Protocol.Request_(r, p, c, run) else Protocol.Observe(r, p, c, run));
      && r in s'.reqs && (s'.reqs[r].phase.Waiting? ==> s'.reqs[r].phase.ctx == p)
      && s'.reqs[r].ctxs == if ProtocolGuarantees.Succeeds(s, r, p, c) then s.reqs[r].ctxs + {p} else s.reqs[r].ctxs
  {
    hide ProtocolGuarantees.Inv, Protocol.OnHttp, Protocol.Drive;
    DriverGuarantees.InvCode(s);
    EntryAdds(s, r, p, c, run);
    DriveAdds(Protocol.OnHttp(s, r, p, c, run).0, r, p, Protocol.OnHttp(s, r, p, c, run).1);
  }

  lemma CallbackAdds(s: Protocol.State, r: ReqId, answered: bool, c: Protocol.Creation, run: Protocol.Run)
    requires ProtocolGuarantees.Inv(s) && Protocol.Enabled(s, Protocol.Response(r, answered, c, run))
    ensures s.code < UINT32
    ensures var s' := Protocol.Next(s, Protocol.Response(r, answered, c, run));
      && r in s'.reqs && s'.reqs[r].ctxs == s.reqs[r].ctxs
      && (s'.reqs[r].phase.Waiting? ==> s'.reqs[r].phase.ctx == s.reqs[r].phase.ctx)
  {
    hide ProtocolGuarantees.Inv, Protocol.PerformAll, Protocol.Drive;
    DriverGuarantees.InvCode(s);
    var p := s.reqs[r].phase.ctx;
    ProtocolGuarantees.ResponseHasContext(s, r, c, run);
    ProtocolGuarantees.PerformAllKeepsPhase(Protocol.CallBack(s, r, p, answered), r, p, run.calls);
    DriveAdds(Protocol.OnCallResponse(s, r, p, answered, c, run).0, r, p,
              Protocol.OnCallResponse(s, r, p, answered, c, run).1);
  }

  // ------------------------------------------------------------------------------------
  // The two agree

  /** The HTTP contexts that a request has in the protocol are those in its array, a request with a
      module context is there, and a suspended driver's plugin context still has its handle. */
  ghost predicate Joined(w: World, s: Protocol.State) {
    && (forall r :: r in w.touched ==> r in s.reqs)
    && (forall r, p :: r in s.reqs ==> (p in s.reqs[r].ctxs <==> Entry(w, r, p).Some?))
    && (forall r :: r in s.reqs && s.reqs[r].phase.Waiting? ==> s.reqs[r].phase.ctx in w.ctxHandles)
  }

  /** A step of r that may give it an HTTP context under p, in both. */
  lemma StepJoins(w: World, s: Protocol.State, w': World, s': Protocol.State, p: Ref, r: ReqId, gained: bool)
    requires Joined(w, s) && r in s.reqs && r in s'.reqs
    requires w'.touched <= w.touched + {r} && w'.ctxHandles == w.ctxHandles && OthersStay(w, w', r)
    requires forall q :: Entry(w', r, q).Some? <==> Entry(w, r, q).Some? || (q == p && gained)
    requires forall q :: q != r ==>
               (q in s'.reqs <==> q in s.reqs) && (q in s.reqs ==> s'.reqs[q] == s.reqs[q])
    requires s'.reqs[r].ctxs == if gained then s.reqs[r].ctxs + {p} else s.reqs[r].ctxs
    requires s'.reqs[r].phase.Waiting? ==> s'.reqs[r].phase.ctx in w.ctxHandles
    ensures Joined(w', s')
  {
    hide Entry;
  }

  lemma OthersAreSame(s: Protocol.State, t: Protocol.Step)
    requires ProtocolGuarantees.Inv(s) && Protocol.Enabled(s, t)
    ensures s.code < UINT32
    ensures forall q :: q != t.r ==>
              (q in Protocol.Next(s, t).reqs <==> q in s.reqs)
              && (q in s.reqs ==> Protocol.Next(s, t).reqs[q] == s.reqs[q])
  {
    hide ProtocolGuarantees.Inv, Protocol.Next;
    DriverGuarantees.InvCode(s);
    forall q | q != t.r
      ensures q in Protocol.Next(s, t).reqs <==> q in s.reqs
      ensures q in s.reqs ==> Protocol.Next(s, t).reqs[q] == s.reqs[q]
    {
      DriverGuarantees.StepIsLocal(s, t, q);
    }
  }

  /** The allocators and the guest decide the same in both. */
  lemma AnswersDecide(w: World, s: Protocol.State, p: Ref, r: ReqId, o: FetchAnswers, c: Protocol.Creation)
    requires Joined(w, s) && r in s.reqs && p in w.pctxs && SameAnswers(w, p, r, o, c)
    ensures ProtocolGuarantees.Succeeds(s, r, p, c) <==> Entry(w, r, p).Some? || Gets(w, p, r, o)
  {
    hide Entry, HasRoom;
  }

  lemma PhaseJoins(w: World, s: Protocol.State, t: Step)
    requires Inv(w) && ProtocolGuarantees.Inv(s) && Joined(w, s) && Enabled(w, s, t) && t.Phase?
    ensures s.code < UINT32 && Protocol.Enabled(s, DriverSteps(t)[0])
    ensures Joined(Service(w, t.p, t.r, t.body, t.fetch), Protocol.Next(s, DriverSteps(t)[0]))
    ensures RunsStream(w, t.p, t.r, t.body, t.fetch) <==> ProtocolGuarantees.Succeeds(s, t.r, t.p, t.creation)
  {
    hide Inv, ProtocolGuarantees.Inv, Service, Protocol.Next, RunsStream, Entry, Joined, SameAnswers, Gets,
         ProtocolGuarantees.Succeeds;
    var Phase(p, r, body, o, drives, c, run) := t;
    DriverGuarantees.InvCode(s);
    ServePhases(w, p, r, body, o);
    AnswersDecide(w, s, p, r, o, c);
    PhaseAdds(s, p, r, drives, c, run);
    OthersAreSame(s, DriverSteps(t)[0]);
    StepJoins(w, s, Service(w, p, r, body, o), Protocol.Next(s, DriverSteps(t)[0]), p, r,
              ProtocolGuarantees.Succeeds(s, r, p, c));
  }

  lemma CallbackJoins(w: World, s: Protocol.State, t: Step)
    requires Inv(w) && ProtocolGuarantees.Inv(s) && Joined(w, s) && Enabled(w, s, t) && t.Callback?
    ensures s.code < UINT32
    ensures Joined(CallResponse(w, t.p, t.r, t.fetch), Protocol.Next(s, DriverSteps(t)[0]))
  {
    hide Inv, ProtocolGuarantees.Inv, CallResponse, Protocol.Next, Entry, Joined, Gets;
    var Callback(p, r, answered, o, c, run) := t;
    DriverGuarantees.InvCode(s);
    ServePhases(w, p, r, None, o);
    CallbackAdds(s, r, answered, c, run);
    ProtocolGuarantees.WaitingHasCtx(s, r);
    HasItsEntry(w, s, r, p);
    OthersAreSame(s, DriverSteps(t)[0]);
    StepJoins(w, s, CallResponse(w, p, r, o), Protocol.Next(s, DriverSteps(t)[0]), p, r, true);
  }

  lemma HasItsEntry(w: World, s: Protocol.State, r: ReqId, p: Ref)
    requires Joined(w, s) && r in s.reqs && p in s.reqs[r].ctxs
    ensures Entry(w, r, p).Some? && s.reqs[r].ctxs + {p} == s.reqs[r].ctxs
  {
    hide Entry;
  }

  lemma OwnStepJoins(w: World, s: Protocol.State, t: Step)
    requires Inv(w) && ProtocolGuarantees.Inv(s) && Joined(w, s) && Enabled(w, s, t) && t.OwnStep?
    ensures Joined(Runs.Next(w, t.step), s)
  {
    hide Inv, ProtocolGuarantees.Inv, Runs.Next, Entry;
    OwnStepSpares(w, t.step);
  }

  lemma BeginJoins(w: World, s: Protocol.State, r: ReqId)
    requires Inv(w) && ProtocolGuarantees.Inv(s) && Joined(w, s) && Protocol.Enabled(s, Protocol.Begin(r))
    ensures s.code < UINT32 && Joined(w, Protocol.Next(s, Protocol.Begin(r)))
  {
    hide Inv, ProtocolGuarantees.Inv;
    DriverGuarantees.InvCode(s);
    DriverGuarantees.InvSeen(s);
    InvStructure(w);
    if r in w.requests {
      ArrayIsLive(w, r);
    }
  }

  lemma EndJoins(w: World, s: Protocol.State, r: ReqId)
    requires Inv(w) && Joined(w, s) && r in s.reqs
    ensures var s' := s.(reqs := s.reqs - {r});
      Joined(if r in w.touched then Cleanup(w, r) else w, s')
  {
    hide Inv, Cleanup, Entry;
    if r in w.touched {
      EndSpares(w, r);
    }
  }

  /** In every run of both, the two parts are legal runs, so that all that is proved of either holds, and
      they agree on the HTTP contexts of every request. */
  lemma {:induction false} ContextsAgree(ts: seq<Step>)
    requires Legal(ts)
    ensures BothLegal(ts) && Joined(WorldOf(ts), StateOf(ts))
  {
    hide BothLegal, WorldOf, StateOf, Inv, ProtocolGuarantees.Inv, Joined, Service, CallResponse, Cleanup,
         Protocol.Next, Protocol.Enabled, SameAnswers, Runs.Enabled;
    if ts == [] {
      NothingIsLegal();
      NothingJoins();
    } else {
      var init, t := ts[..|ts| - 1], ts[|ts| - 1];
      ContextsAgree(init);
      StepSplits(ts);
      var w, s := WorldOf(init), StateOf(init);
      EnabledInBoth(w, s, t);
      match t
      case OwnStep(step) => OwnStepJoins(w, s, t);
      case Begin(r) => BeginJoins(w, s, r);
      case Phase(_, _, _, _, _, _, _) => PhaseJoins(w, s, t);
      case Callback(_, _, _, _, _, _) => CallbackJoins(w, s, t);
      case End(r, used) =>
        EndJoins(w, s, r);
        DestroyDrops(s, r);
    }
  }

  lemma DestroyDrops(s: Protocol.State, r: ReqId)
    requires s.code < UINT32 && r in s.reqs
    ensures Protocol.Enabled(s, Protocol.Destroy(r))
    ensures Protocol.Next(s, Protocol.Destroy(r)) == s.(reqs := s.reqs - {r})
  {
  }

  lemma NothingJoins()
    ensures Joined(Empty, Protocol.Start)
  {
  }

  /** A phase runs the callback of the guest in one exactly when it does in the other. */
  lemma PhaseRunsInBoth(ts: seq<Step>, t: Step)
    requires Legal(ts) && BothLegal(ts) && Enabled(WorldOf(ts), StateOf(ts), t) && t.Phase?
    ensures RunsStream(WorldOf(ts), t.p, t.r, t.body, t.fetch)
       <==> t.r in StateOf(ts).reqs && ProtocolGuarantees.Succeeds(StateOf(ts), t.r, t.p, t.creation)
  {
    hide Inv, ProtocolGuarantees.Inv, BothLegal, WorldOf, StateOf, Joined, RunsStream, ProtocolGuarantees.Succeeds;
    ContextsAgree(ts);
    PhaseJoins(WorldOf(ts), StateOf(ts), t);
  }

  // ------------------------------------------------------------------------------------
  // Where the callback of a callout goes

  /** The registration of r's last callout: for which context, under which id. */
  function Registration(log: seq<Protocol.Event>, r: ReqId): Option<(Ref, nat)> {
    if log == [] then None
    else
      var e := log[|log| - 1];
      if e.Registered? && e.r == r then Some((e.p, e.id)) else Registration(log[..|log| - 1], r)
  }

  lemma {:induction false} FlyingIsRegistered(log: seq<Protocol.Event>, r: ReqId)
    requires DriverGuarantees.Straight(log, r)
    ensures var slot := ProtocolGuarantees.Track(log, r);
      && (slot.Ready? ==> Registration(log, r) == Some((slot.registrant, slot.id)))
      && (slot.Flying? ==> Registration(log, r) == Some((slot.fetcher, slot.id)))
  {
    if log != [] {
      FlyingIsRegistered(log[..|log| - 1], r);
    }
  }

  lemma WaitingIsFlying(s: Protocol.State, r: ReqId)
    requires ProtocolGuarantees.Inv(s) && r in s.reqs && s.reqs[r].phase.Waiting?
    ensures ProtocolGuarantees.Track(s.log, r)
         == ProtocolGuarantees.Flying(s.reqs[r].calloutId, s.reqs[r].phase.ctx)
    ensures s.reqs[r].phase.ctx in s.reqs[r].ctxs
  {
  }

  /** In every run of both, whatever happened to other contexts, plugins and requests since: the driver
      that waits for a callout can be resumed. Its plugin context is in use, with a loaded plugin; the
      request has a live HTTP context under it, which the callback finds, so that the guest is run; the
      callback carries the id of the callout; and the callout was registered for this very plugin
      context, unless a driver of the request has found one that another had left. */
  lemma CallbackGoesToItsContext(ts: seq<Step>, r: ReqId, answered: bool, o: FetchAnswers,
                                 c: Protocol.Creation, run: Protocol.Run)
    requires Legal(ts) && BothLegal(ts) && r in StateOf(ts).reqs && StateOf(ts).reqs[r].phase.Waiting?
    ensures var w, s := WorldOf(ts), StateOf(ts);
      var p := s.reqs[r].phase.ctx;
      && Enabled(w, s, Callback(p, r, answered, o, c, run))
      && p in w.ctxHandles && p in w.busy && CanServe(w, p)
      && Entry(w, r, p).Some? && Entry(w, r, p).value in w.hctxs && w.hctxs[Entry(w, r, p).value].parent == p
      && RunsCallResponse(w, p, r, o)
      && Protocol.Fetch(s, r, p, c) == (s, true)
      && ProtocolGuarantees.Track(s.log, r) == ProtocolGuarantees.Flying(s.reqs[r].calloutId, p)
      && (!DriverGuarantees.EverCrosses(DriverPart(ts), r) ==>
            Registration(s.log, r) == Some((p, s.reqs[r].calloutId)))
  {
    hide Inv, ProtocolGuarantees.Inv, WorldOf, RunsCallResponse, DriverGuarantees.EverCrosses, FindEntry, CanServe,
         ProtocolGuarantees.Track, ProtocolGuarantees.Legal, ProtocolGuarantees.After, Runs.Legal;
    var w, s := WorldOf(ts), StateOf(ts);
    var p := s.reqs[r].phase.ctx;
    ContextsAgree(ts);
    WaitingIsFlying(s, r);
    HandleServes(w, p);
    ServePhases(w, p, r, None, o);
    DriverGuarantees.CalloutsStayStraightExactlyWhen(DriverPart(ts), r);
    if !DriverGuarantees.EverCrosses(DriverPart(ts), r) {
      FlyingIsRegistered(s.log, r);
    }
  }
}
