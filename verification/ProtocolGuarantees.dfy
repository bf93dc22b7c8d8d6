/** What every interleaving of requests guarantees about callouts, results and ids. */
module ProtocolGuarantees {
  import opened Common
  import opened Protocol

  // ------------------------------------------------------------------------------------
  // The slot of a request, as its events tell

  datatype Slot = Free | Ready(id: nat, registrant: CtxId) | Flying(id: nat, fetcher: CtxId) | Broken

  /** Register, fetch and call back take turns, fetch and callback carry the id that the
      registration handed out, and the callback goes to the context whose driver fetched the
      callout. Anything else breaks the slot. */
  function Move(slot: Slot, e: Event): Slot {
    match e
    case Registered(_, p, id) => if slot.Free? then Ready(id, p) else Broken
    case Fetched(_, p, id) => if slot.Ready? && slot.id == id then Flying(id, p) else Broken
    case CalledBack(_, p, id, _) => if slot == Flying(id, p) then Free else Broken
  }

  function Track(log: seq<Event>, r: ReqId): Slot {
    if log == [] then Free
    else
      var before := Track(log[..|log| - 1], r);
      if log[|log| - 1].r == r then Move(before, log[|log| - 1]) else before
  }

  lemma TrackSnoc(log: seq<Event>, e: Event, r: ReqId)
    ensures Track(log + [e], r) == if e.r == r then Move(Track(log, r), e) else Track(log, r)
  {
    assert (log + [e])[..|log + [e]| - 1] == log;
  }

  lemma TracksSnoc(log: seq<Event>, e: Event)
    ensures forall r :: Track(log + [e], r) == if e.r == r then Move(Track(log, r), e) else Track(log, r)
  {
    forall r {
      TrackSnoc(log, e, r);
    }
  }

  /** The ids handed out, in order. */
  function Ids(log: seq<Event>): seq<nat> {
    if log == [] then []
    else Ids(log[..|log| - 1]) + match log[|log| - 1] case Registered(_, _, id) => [id] case _ => []
  }

  lemma IdsSnoc(log: seq<Event>, e: Event)
    ensures Ids(log + [e]) == Ids(log) + match e case Registered(_, _, id) => [id] case _ => []
  {
    assert (log + [e])[..|log + [e]| - 1] == log;
  }

  // ------------------------------------------------------------------------------------
  // The invariant

  /** The id of the k-th callout of the worker, counted from 0. */
  function IdOf(k: nat): nat { k % UINT32 }

  lemma IdOfNext(k: nat)
    ensures IdOf(k + 1) == (IdOf(k) + 1) % UINT32
  {
  }

  lemma IdsWrap(i: nat, j: nat)
    requires i < j
    ensures j < UINT32 ==> IdOf(i) != IdOf(j)
    ensures IdOf(0) == IdOf(UINT32)
  {
  }

  /** What the record of a request says about its slot, while no guest runs. */
  ghost predicate AtRest(s: State, r: ReqId)
    requires r in s.reqs
  {
    var q := s.reqs[r];
    && Track(s.log, r)
       == (if q.phase.Waiting? then Flying(q.calloutId, q.phase.ctx)
           else if q.callout.Some? then Ready(q.calloutId, q.callout.value.registrant)
           else Free)
    && (q.phase.Waiting? ==> q.callout.None? && q.phase.ctx in q.ctxs)
  }

  /** The same while the guest runs on behalf of r. */
  ghost predicate InEntry(s: State, r: ReqId)
    requires r in s.reqs
  {
    var q := s.reqs[r];
    Track(s.log, r) == if q.callout.Some? then Ready(q.calloutId, q.callout.value.registrant) else Free
  }

  ghost predicate Shared(s: State) {
    && s.code < UINT32
    && s.nextId == IdOf(|Ids(s.log)|)
    && (forall k :: 0 <= k < |Ids(s.log)| ==> Ids(s.log)[k] == IdOf(k))
    && (forall r :: r in s.reqs ==> r in s.seen)
    && (forall r :: r !in s.seen ==> Track(s.log, r) == Free)
    && (forall r :: Track(s.log, r) != Broken)
  }

  ghost predicate Inv(s: State) {
    Shared(s) && forall r :: r in s.reqs ==> AtRest(s, r)
  }

  /** The invariant in the middle of an entry for r. */
  ghost predicate Mid(s: State, r: ReqId) {
    && Shared(s) && r in s.reqs && InEntry(s, r)
    && forall q :: q in s.reqs && q != r ==> AtRest(s, q)
  }

  /** Registered is logged when the slot of r is free and the counter stands at the id. */
  lemma RegisteredKeepsShared(s: State, s': State, r: ReqId, p: CtxId)
    requires Shared(s) && Track(s.log, r) == Free && r in s.seen
    requires s'.log == s.log + [Registered(r, p, s.nextId)] && s'.nextId == (s.nextId + 1) % UINT32
    requires s'.code == s.code && s'.seen == s.seen && s'.reqs.Keys == s.reqs.Keys
    ensures Shared(s')
  {
    hide IdOf;
    IdOfNext(|Ids(s.log)|);
    IdsSnoc(s.log, Registered(r, p, s.nextId));
    TracksSnoc(s.log, Registered(r, p, s.nextId));
    assert forall q :: q in s'.reqs ==> q in s'.reqs.Keys;
  }

  lemma RegisterKeeps(s: State, r: ReqId, p: CtxId, timeout: int, hasMap: bool, memOk: bool)
    requires Mid(s, r)
    ensures Mid(Register(s, r, p, timeout, hasMap, memOk).0, r)
  {
    var s' := Register(s, r, p, timeout, hasMap, memOk).0;
    if s' != s {
      MidShared(s, r);
      RegisteredKeepsShared(s, s', r, p);
      RegisterKeepsSlots(s, s', r, p, timeout, hasMap);
    }
  }

  lemma MidShared(s: State, r: ReqId)
    requires Mid(s, r)
    ensures Shared(s) && r in s.reqs && r in s.seen && (s.reqs[r].callout.None? ==> Track(s.log, r) == Free)
  {
  }

  lemma RegisterKeepsSlots(s: State, s': State, r: ReqId, p: CtxId, timeout: int, hasMap: bool)
    requires Mid(s, r) && s.reqs[r].callout.None? && Shared(s')
    requires s' == s.(reqs := s.reqs[r := s.reqs[r].(callout := Some(Pending(timeout, hasMap, p)),
                                                     calloutId := s.nextId)],
                      nextId := (s.nextId + 1) % UINT32,
                      log := s.log + [Registered(r, p, s.nextId)])
    ensures Mid(s', r)
  {
    hide Shared;
    TracksSnoc(s.log, Registered(r, p, s.nextId));
  }

  lemma PerformKeeps(s: State, r: ReqId, p: CtxId, c: HostCall)
    requires Mid(s, r)
    ensures Mid(Perform(s, r, p, c), r)
  {
    match c
    case HttpCall(allowed, memOk, timeout, hasMap) => RegisterKeeps(s, r, p, timeout, hasMap, memOk);
    case LocalResponse(_, _, _, _, _) =>
  }

  lemma {:induction false} PerformAllKeeps(s: State, r: ReqId, p: CtxId, cs: seq<HostCall>)
    requires Mid(s, r)
    ensures Mid(PerformAll(s, r, p, cs), r)
  {
    if cs != [] {
      PerformAllKeeps(s, r, p, cs[..|cs| - 1]);
      PerformKeeps(PerformAll(s, r, p, cs[..|cs| - 1]), r, p, cs[|cs| - 1]);
    }
  }

  lemma HandleRcKeeps(s: State, r: ReqId, rc: int)
    requires Mid(s, r)
    ensures Mid(HandleRc(s, r, rc).0, r)
  {
  }

  lemma AddCtxKeeps(s: State, r: ReqId, p: CtxId)
    requires Mid(s, r)
    ensures Mid(AddCtx(s, r, p), r)
  {
  }

  lemma MidCode(s: State, r: ReqId)
    requires Mid(s, r)
    ensures s.code < UINT32 && r in s.reqs
  {
  }

  lemma FetchKeeps(s: State, r: ReqId, p: CtxId, c: Creation)
    requires Mid(s, r)
    ensures Mid(Protocol.Fetch(s, r, p, c).0, r)
  {
    hide Mid, AddCtx;
    MidCode(s, r);
    if p !in s.reqs[r].ctxs && c.Create? {
      PerformAllKeeps(s, r, p, c.calls);
      AddCtxKeeps(PerformAll(s, r, p, c.calls), r, p);
    }
  }

  /** The part of an entry that has its HTTP context. */
  lemma RunKeeps(s: State, r: ReqId, p: CtxId, cs: seq<HostCall>, rc: int)
    requires Mid(s, r)
    ensures r in s.reqs && s.code < UINT32 && Mid(HandleRc(PerformAll(s, r, p, cs), r, rc).0, r)
  {
    hide Mid, HandleRc;
    MidCode(s, r);
    PerformAllKeeps(s, r, p, cs);
    HandleRcKeeps(PerformAll(s, r, p, cs), r, rc);
  }

  lemma OnHttpKeeps(s: State, r: ReqId, p: CtxId, c: Creation, run: Run)
    requires Mid(s, r)
    ensures r in s.reqs && s.code < UINT32 && Mid(OnHttp(s, r, p, c, run).0, r)
  {
    hide Mid, HandleRc, Protocol.Fetch;
    MidCode(s, r);
    FetchKeeps(s, r, p, c);
    RunKeeps(Protocol.Fetch(s, r, p, c).0, r, p, run.calls, run.rc);
  }

  lemma FetchCalloutKeeps(s: State, r: ReqId, p: CtxId)
    requires Mid(s, r) && s.reqs[r].callout.Some? && p in s.reqs[r].ctxs
    ensures Inv(FetchCallout(s, r, p))
  {
    var e := Event.Fetched(r, p, s.reqs[r].calloutId);
    IdsSnoc(s.log, e);
    TracksSnoc(s.log, e);
  }

  lemma EndKeeps(s: State, r: ReqId, o: Outcome)
    requires Mid(s, r)
    ensures Inv(End(s, r, o))
  {
  }

  lemma DriveKeeps(s: State, r: ReqId, p: CtxId, rc: int)
    requires Mid(s, r) && (rc >= 0 ==> p in s.reqs[r].ctxs)
    ensures Inv(Drive(s, r, p, rc))
  {
    hide Inv, FetchCallout, End;
    if s.reqs[r].callout.Some? && rc >= 0 {
      FetchCalloutKeeps(s, r, p);
    }
    EndKeeps(s, r, Failed);
    EndKeeps(s, r, Exited(rc, FetchLocalBody(s)));
    EndKeeps(s, r, Crashed);
    EndKeeps(s, r, Passed);
    EndKeeps(s, r, Spinning);
  }

  lemma RestIsMid(s: State, r: ReqId)
    requires Inv(s) && r in s.reqs && !s.reqs[r].phase.Waiting?
    ensures Mid(s, r)
  {
  }

  lemma CallBackIsMid(s: State, r: ReqId, answered: bool)
    requires Inv(s) && r in s.reqs && s.reqs[r].phase.Waiting?
    ensures Mid(CallBack(s, r, s.reqs[r].phase.ctx, answered), r)
  {
    var e := CalledBack(r, s.reqs[r].phase.ctx, s.reqs[r].calloutId, answered);
    IdsSnoc(s.log, e);
    TracksSnoc(s.log, e);
  }

  /** Host calls leave phase and contexts of the request alone. */
  lemma {:induction false} PerformAllKeepsPhase(s: State, r: ReqId, p: CtxId, cs: seq<HostCall>)
    requires r in s.reqs
    ensures PerformAll(s, r, p, cs).reqs[r].phase == s.reqs[r].phase
    ensures PerformAll(s, r, p, cs).reqs[r].ctxs == s.reqs[r].ctxs
  {
    if cs != [] {
      PerformAllKeepsPhase(s, r, p, cs[..|cs| - 1]);
    }
  }

  lemma OnHttpKeepsPhase(s: State, r: ReqId, p: CtxId, c: Creation, run: Run)
    requires r in s.reqs && s.code < UINT32
    ensures r in OnHttp(s, r, p, c, run).0.reqs && OnHttp(s, r, p, c, run).0.reqs[r].phase == s.reqs[r].phase
    ensures OnHttp(s, r, p, c, run).1 >= 0 ==> p in OnHttp(s, r, p, c, run).0.reqs[r].ctxs
  {
    var s1 := Protocol.Fetch(s, r, p, c).0;
    if p !in s.reqs[r].ctxs && c.Create? {
      PerformAllKeepsPhase(s, r, p, c.calls);
    }
    PerformAllKeepsPhase(s1, r, p, run.calls);
  }

  lemma MidIsRest(s: State, r: ReqId)
    requires Mid(s, r) && !s.reqs[r].phase.Waiting?
    ensures Inv(s)
  {
  }

  /** A driver that has waited for a callout finds its HTTP context again, so that the early return
      of ngx_http_wasm_on_http_call_resp is never taken. */
  lemma ResponseHasContext(s: State, r: ReqId, c: Creation, run: Run)
    requires Inv(s) && r in s.reqs && s.reqs[r].phase.Waiting?
    ensures var p := s.reqs[r].phase.ctx; Protocol.Fetch(s, r, p, c) == (s, true)
  {
  }

  lemma NextKeeps(s: State, t: Step)
    requires Inv(s) && Enabled(s, t)
    ensures Inv(Next(s, t))
  {
    match t
    case Begin(r) =>
    case Request_(r, p, c, run) =>
      hide Inv, Mid, OnHttp, Drive;
      RestIsMid(s, r);
      MidCode(s, r);
      OnHttpKeeps(s, r, p, c, run);
      OnHttpKeepsPhase(s, r, p, c, run);
      DriveKeeps(OnHttp(s, r, p, c, run).0, r, p, OnHttp(s, r, p, c, run).1);
    case Response(r, answered, c, run) =>
      ResponseKeeps(s, r, answered, c, run);
    case Observe(r, p, c, run) =>
      hide Inv, Mid, OnHttp;
      RestIsMid(s, r);
      MidCode(s, r);
      OnHttpKeeps(s, r, p, c, run);
      OnHttpKeepsPhase(s, r, p, c, run);
      MidIsRest(OnHttp(s, r, p, c, run).0, r);
    case Destroy(r) =>
  }

  lemma ResponseKeeps(s: State, r: ReqId, answered: bool, c: Creation, run: Run)
    requires Inv(s) && Enabled(s, Response(r, answered, c, run))
    ensures Inv(Next(s, Response(r, answered, c, run)))
  {
    hide Inv, Mid, HandleRc, Drive, PerformAll;
    var p := s.reqs[r].phase.ctx;
    ResponseHasContext(s, r, c, run);
    CallBackIsMid(s, r, answered);
    var rc := if run.rc < 0 then NGX_ERROR else NGX_OK;
    RunKeeps(CallBack(s, r, p, answered), r, p, run.calls, rc);
    PerformAllKeepsPhase(CallBack(s, r, p, answered), r, p, run.calls);
    HandleRcKeepsCtxs(PerformAll(CallBack(s, r, p, answered), r, p, run.calls), r, rc);
    WaitingHasCtx(s, r);
    DriveKeeps(OnCallResponse(s, r, p, answered, c, run).0, r, p, OnCallResponse(s, r, p, answered, c, run).1);
  }

  lemma WaitingHasCtx(s: State, r: ReqId)
    requires Inv(s) && r in s.reqs && s.reqs[r].phase.Waiting?
    ensures s.code < UINT32 && s.reqs[r].phase.ctx in s.reqs[r].ctxs && s.reqs[r].callout.None?
  {
  }

  lemma HandleRcKeepsCtxs(s: State, r: ReqId, rc: int)
    requires r in s.reqs && s.code < UINT32
    ensures HandleRc(s, r, rc).0.reqs == s.reqs
  {
  }

  // ------------------------------------------------------------------------------------
  // Runs

  ghost predicate Legal(ts: seq<Step>)
    decreases |ts|, 0
  {
    ts == [] || (Legal(ts[..|ts| - 1]) && Enabled(After(ts[..|ts| - 1]), ts[|ts| - 1]))
  }

  ghost function After(ts: seq<Step>): (s: State)
    requires Legal(ts)
    ensures Inv(s)
    decreases |ts|, 1
  {
    if ts == [] then Start
    else
      var s := After(ts[..|ts| - 1]);
      NextKeeps(s, ts[|ts| - 1]);
      Next(s, ts[|ts| - 1])
  }

  // ------------------------------------------------------------------------------------
  // The slot protocol

  function CountEvents(log: seq<Event>, f: Event -> bool): nat {
    if log == [] then 0 else CountEvents(log[..|log| - 1], f) + if f(log[|log| - 1]) then 1 else 0
  }

  function Registrations(r: ReqId): Event -> bool { (e: Event) => e.Registered? && e.r == r }
  function Fetches(r: ReqId): Event -> bool { (e: Event) => e.Fetched? && e.r == r }
  function Callbacks(r: ReqId): Event -> bool { (e: Event) => e.CalledBack? && e.r == r }

  /** While a slot is not broken, each registration is fetched at most once and each fetch is
      called back at most once, and at most one of them is outstanding. */
  lemma {:induction false} SlotCounts(log: seq<Event>, r: ReqId)
    requires Track(log, r) != Broken
    ensures CountEvents(log, Registrations(r))
         == CountEvents(log, Fetches(r)) + (if Track(log, r).Ready? then 1 else 0)
    ensures CountEvents(log, Fetches(r))
         == CountEvents(log, Callbacks(r)) + (if Track(log, r).Flying? then 1 else 0)
  {
    if log != [] {
      SlotCounts(log[..|log| - 1], r);
    }
  }

  /** In every run, for every request: the callbacks are as many as the callouts dispatched, but
      for one that is under way, and the callouts dispatched as many as those registered, but
      for one that is pending. */
  lemma CalloutsAreAnsweredInTurn(ts: seq<Step>, r: ReqId)
    requires Legal(ts)
    ensures Track(After(ts).log, r) != Broken
    ensures var log := After(ts).log;
      CountEvents(log, Callbacks(r)) <= CountEvents(log, Fetches(r)) <= CountEvents(log, Registrations(r))
      <= CountEvents(log, Callbacks(r)) + 1
  {
    SlotCounts(After(ts).log, r);
  }

  /** Callout ids are distinct across the whole worker exactly as long as no more than 2^32 have
      been handed out. */
  lemma IdsAreDistinctBelowWrap(ts: seq<Step>)
    requires Legal(ts)
    ensures var ids := Ids(After(ts).log);
      (forall i, j :: 0 <= i < j < |ids| ==> ids[i] != ids[j]) <==> |ids| <= UINT32
  {
    hide IdOf;
    var ids := Ids(After(ts).log);
    assert forall k :: 0 <= k < |ids| ==> ids[k] == IdOf(k);
    forall i, j | 0 <= i < j < |ids|
      ensures j < UINT32 ==> IdOf(i) != IdOf(j)
    {
      IdsWrap(i, j);
    }
    if |ids| > UINT32 {
      IdsWrap(0, UINT32);
      assert ids[0] == ids[UINT32];
    }
  }

  // ------------------------------------------------------------------------------------
  // Results

  /** The code the guest has set last, as the host stores it. */
  function LastCode(cs: seq<HostCall>, before: nat): nat {
    if cs == [] then before
    else if cs[|cs| - 1].LocalResponse? then cs[|cs| - 1].resCode % UINT32
    else LastCode(cs[..|cs| - 1], before)
  }

  lemma {:induction false} CodeIsLast(s: State, r: ReqId, p: CtxId, cs: seq<HostCall>)
    requires r in s.reqs
    ensures PerformAll(s, r, p, cs).code == LastCode(cs, s.code)
  {
    if cs != [] {
      CodeIsLast(s, r, p, cs[..|cs| - 1]);
    }
  }

  /** What the slot of a request is after host calls of p: it depends on nothing but the slot before. */
  function SlotAfter(q: Option<Pending>, p: CtxId, cs: seq<HostCall>): Option<Pending> {
    if cs == [] then q
    else
      var before := SlotAfter(q, p, cs[..|cs| - 1]);
      match cs[|cs| - 1]
      case HttpCall(true, true, timeout, hasMap) =>
        if before.None? && timeout >= 0 then Some(Pending(timeout, hasMap, p)) else before
      case _ => before
  }

  lemma {:induction false} SlotIsOwn(s: State, r: ReqId, p: CtxId, cs: seq<HostCall>)
    requires r in s.reqs
    ensures PerformAll(s, r, p, cs).reqs[r].callout == SlotAfter(s.reqs[r].callout, p, cs)
  {
    if cs != [] {
      SlotIsOwn(s, r, p, cs[..|cs| - 1]);
    }
  }

  /** A slot that is filled stays as it is, and one that gets filled is filled by p. */
  lemma {:induction false} SlotIsKept(q: Option<Pending>, p: CtxId, cs: seq<HostCall>)
    ensures q.Some? ==> SlotAfter(q, p, cs) == q
    ensures q.None? && SlotAfter(q, p, cs).Some? ==> SlotAfter(q, p, cs).value.registrant == p
    ensures NoHttpCalls(cs) ==> SlotAfter(q, p, cs) == q
  {
    if cs != [] {
      assert NoHttpCalls(cs) ==> NoHttpCalls(cs[..|cs| - 1]);
      SlotIsKept(q, p, cs[..|cs| - 1]);
    }
  }

  /** The priorities: a callout goes before an error, an error before a local response, and a
      local response before the result of the guest. */
  function Decide(callout: Option<Pending>, rc: int, code: nat): int
    requires code < UINT32
  {
    if callout.Some? then RC_NEED_HTTP_CALL
    else if rc < 0 then rc
    else if Signed(code) >= 100 then Signed(code)
    else rc
  }

  /** The entry gets its HTTP context. */
  predicate Succeeds(s: State, r: ReqId, p: CtxId, c: Creation)
    requires r in s.reqs
  {
    p in s.reqs[r].ctxs || (c.Create? && c.ok)
  }

  /** The host calls that are made while the HTTP context is created. */
  function CreationCalls(s: State, r: ReqId, p: CtxId, c: Creation): seq<HostCall>
    requires r in s.reqs
  {
    if p !in s.reqs[r].ctxs && c.Create? then c.calls else []
  }

  /** All host calls of an entry, in order. */
  function CallsOf(s: State, r: ReqId, p: CtxId, c: Creation, run: Run): seq<HostCall>
    requires r in s.reqs
  {
    CreationCalls(s, r, p, c) + if Succeeds(s, r, p, c) then run.calls else []
  }

  lemma {:induction false} PerformConcat(s: State, r: ReqId, p: CtxId, a: seq<HostCall>, b: seq<HostCall>)
    requires r in s.reqs
    ensures PerformAll(PerformAll(s, r, p, a), r, p, b) == PerformAll(s, r, p, a + b)
  {
    if b == [] {
      assert a + b == a;
    } else {
      PerformConcat(s, r, p, a, b[..|b| - 1]);
      assert (a + b)[..|a + b| - 1] == a + b[..|b| - 1];
    }
  }

  lemma AddCtxCommutes(s: State, r: ReqId, p: CtxId, c: HostCall)
    requires r in s.reqs
    ensures Perform(AddCtx(s, r, p), r, p, c) == AddCtx(Perform(s, r, p, c), r, p)
  {
  }

  lemma {:induction false} AddCtxFirst(s: State, r: ReqId, p: CtxId, cs: seq<HostCall>)
    requires r in s.reqs
    ensures PerformAll(AddCtx(s, r, p), r, p, cs) == AddCtx(PerformAll(s, r, p, cs), r, p)
  {
    hide Perform, AddCtx;
    AddCtxIn(s, r, p);
    if cs != [] {
      AddCtxFirst(s, r, p, cs[..|cs| - 1]);
      AddCtxCommutes(PerformAll(s, r, p, cs[..|cs| - 1]), r, p, cs[|cs| - 1]);
    }
  }

  lemma AddCtxIn(s: State, r: ReqId, p: CtxId)
    requires r in s.reqs
    ensures r in AddCtx(s, r, p).reqs
  {
  }

  lemma {:induction false} LastCodeBound(cs: seq<HostCall>, before: nat)
    requires before < UINT32
    ensures LastCode(cs, before) < UINT32
  {
    if cs != [] {
      LastCodeBound(cs[..|cs| - 1], before);
    }
  }

  /** What an entry does to the worker: the host calls, the new context, and the code reset if the
      callback was run. */
  function Entered(s: State, r: ReqId, p: CtxId, c: Creation, run: Run): (s': State)
    requires r in s.reqs
    ensures s'.reqs.Keys == s.reqs.Keys
  {
    var s1 := PerformAll(s, r, p, CallsOf(s, r, p, c, run));
    if !Succeeds(s, r, p, c) then s1
    else if p in s.reqs[r].ctxs then s1.(code := 0)
    else AddCtx(s1, r, p).(code := 0)
  }

  lemma EntryPerforms(s: State, r: ReqId, p: CtxId, c: Creation, run: Run)
    requires r in s.reqs && s.code < UINT32
    ensures OnHttp(s, r, p, c, run).0 == Entered(s, r, p, c, run)
    ensures var s1 := PerformAll(s, r, p, CallsOf(s, r, p, c, run));
      s1.code < UINT32
      && OnHttp(s, r, p, c, run).1 == if Succeeds(s, r, p, c) then HandleRc(s1, r, run.rc).1 else NGX_DECLINED
  {
    hide PerformAll;
    if p in s.reqs[r].ctxs {
      assert [] + run.calls == run.calls;
    } else if c.Create? {
      if c.ok {
        AddCtxFirst(PerformAll(s, r, p, c.calls), r, p, run.calls);
        PerformConcat(s, r, p, c.calls, run.calls);
      } else {
        assert c.calls + [] == c.calls;
      }
    } else {
      NoCalls(s, r, p);
      assert CallsOf(s, r, p, c, run) == [];
    }
  }

  lemma NoCalls(s: State, r: ReqId, p: CtxId)
    requires r in s.reqs
    ensures PerformAll(s, r, p, []) == s
  {
  }

  /** The result of an entry, in terms of the slot of its request, of its own host calls, and of
      the code it finds. */
  lemma ResultOfEntry(s: State, r: ReqId, p: CtxId, c: Creation, run: Run)
    requires r in s.reqs && s.code < UINT32
    ensures var cs := CallsOf(s, r, p, c, run);
      && LastCode(cs, s.code) < UINT32
      && OnHttp(s, r, p, c, run).1
           == (if Succeeds(s, r, p, c) then Decide(SlotAfter(s.reqs[r].callout, p, cs), run.rc, LastCode(cs, s.code))
               else NGX_DECLINED)
      && OnHttp(s, r, p, c, run).0 == Entered(s, r, p, c, run)
  {
    hide OnHttp, PerformAll, CallsOf, LastCode, SlotAfter, Entered;
    var cs := CallsOf(s, r, p, c, run);
    EntryPerforms(s, r, p, c, run);
    LastCodeBound(cs, s.code);
    CodeIsLast(s, r, p, cs);
    SlotIsOwn(s, r, p, cs);
  }

  /** Isolation: as long as the shared code is 0 between entries, the result of an entry is
      decided by its own request alone, whatever the worker is doing for other requests. */
  lemma ResultIsOwn(s: State, s2: State, r: ReqId, p: CtxId, c: Creation, run: Run)
    requires r in s.reqs && r in s2.reqs && s.reqs[r].callout == s2.reqs[r].callout && s.reqs[r].ctxs == s2.reqs[r].ctxs
    requires s.code == 0 && s2.code == 0
    ensures OnHttp(s, r, p, c, run).1 == OnHttp(s2, r, p, c, run).1
  {
    ResultOfEntry(s, r, p, c, run);
    ResultOfEntry(s2, r, p, c, run);
  }

  /** A code left behind decides a foreign entry exactly when that entry gets its HTTP context,
      starts no callout, does not fail, sends no response of its own, and would not have come to
      the same result. */
  lemma StaleCodeMattersExactlyWhen(s: State, r: ReqId, p: CtxId, c: Creation, run: Run)
    requires r in s.reqs && s.code < UINT32
    ensures OnHttp(s, r, p, c, run).1 != OnHttp(s.(code := 0), r, p, c, run).1
       <==> && Succeeds(s, r, p, c)
            && SlotAfter(s.reqs[r].callout, p, CallsOf(s, r, p, c, run)).None?
            && run.rc >= 0
            && (forall d :: d in CallsOf(s, r, p, c, run) ==> !d.LocalResponse?)
            && Signed(s.code) >= 100 && Signed(s.code) != run.rc
  {
    ResultOfEntry(s, r, p, c, run);
    ResultOfEntry(s.(code := 0), r, p, c, run);
    OwnCode(CallsOf(s, r, p, c, run), s.code, 0);
  }

  // ------------------------------------------------------------------------------------
  // Results of callbacks

  /** The run of a callback as that of an entry: its result says no more than whether it failed. */
  function AsEntry(run: Run): Run {
    run.(rc := if run.rc < 0 then NGX_ERROR else NGX_OK)
  }

  lemma ResponseAsEntry(s: State, r: ReqId, p: CtxId, answered: bool, c: Creation, run: Run)
    requires r in s.reqs && s.code < UINT32
    ensures OnCallResponse(s, r, p, answered, c, run).1 == OnHttp(s, r, p, c, AsEntry(run)).1
    ensures OnCallResponse(s, r, p, answered, c, run).0.code == OnHttp(s, r, p, c, AsEntry(run)).0.code
  {
    hide PerformAll;
    var s1 := Protocol.Fetch(s, r, p, c).0;
    CodeIsLast(s1, r, p, run.calls);
    CodeIsLast(CallBack(s1, r, p, answered), r, p, run.calls);
    SlotIsOwn(s1, r, p, run.calls);
    SlotIsOwn(CallBack(s1, r, p, answered), r, p, run.calls);
  }

  /** The same priorities decide the result of a callback, */
  lemma ResultOfResponse(s: State, r: ReqId, p: CtxId, answered: bool, c: Creation, run: Run)
    requires r in s.reqs && s.code < UINT32
    ensures var cs := CallsOf(s, r, p, c, run);
      && LastCode(cs, s.code) < UINT32
      && OnCallResponse(s, r, p, answered, c, run).1
         == if Succeeds(s, r, p, c)
            then Decide(SlotAfter(s.reqs[r].callout, p, cs), AsEntry(run).rc, LastCode(cs, s.code))
            else NGX_DECLINED
  {
    hide OnHttp, OnCallResponse, SlotAfter, LastCode;
    ResponseAsEntry(s, r, p, answered, c, run);
    ResultOfEntry(s, r, p, c, AsEntry(run));
  }

  /** with the code at 0 it is decided by its own request, */
  lemma ResponseResultIsOwn(s: State, s2: State, r: ReqId, p: CtxId, answered: bool, c: Creation, run: Run)
    requires r in s.reqs && r in s2.reqs && s.reqs[r].callout == s2.reqs[r].callout && s.reqs[r].ctxs == s2.reqs[r].ctxs
    requires s.code == 0 && s2.code == 0
    ensures OnCallResponse(s, r, p, answered, c, run).1 == OnCallResponse(s2, r, p, answered, c, run).1
  {
    hide OnHttp, OnCallResponse;
    ResponseAsEntry(s, r, p, answered, c, run);
    ResponseAsEntry(s2, r, p, answered, c, run);
    ResultIsOwn(s, s2, r, p, c, AsEntry(run));
  }

  /** and a code left behind decides it under the same condition. As the guest's own result is not
      what is returned, any response code left behind differs from what would have been. */
  lemma StaleCodeMattersToResponseExactlyWhen(s: State, r: ReqId, p: CtxId, answered: bool, c: Creation, run: Run)
    requires r in s.reqs && s.code < UINT32
    ensures OnCallResponse(s, r, p, answered, c, run).1 != OnCallResponse(s.(code := 0), r, p, answered, c, run).1
       <==> && Succeeds(s, r, p, c)
            && SlotAfter(s.reqs[r].callout, p, CallsOf(s, r, p, c, run)).None?
            && run.rc >= 0
            && (forall d :: d in CallsOf(s, r, p, c, run) ==> !d.LocalResponse?)
            && Signed(s.code) >= 100
  {
    hide OnHttp, OnCallResponse, SlotAfter;
    ResponseAsEntry(s, r, p, answered, c, run);
    ResponseAsEntry(s.(code := 0), r, p, answered, c, run);
    StaleCodeMattersExactlyWhen(s, r, p, c, AsEntry(run));
  }

  // ------------------------------------------------------------------------------------
  // Codes left behind

  lemma {:induction false} OwnCode(cs: seq<HostCall>, a: nat, b: nat)
    ensures (forall c :: c in cs ==> !c.LocalResponse?) ==> LastCode(cs, a) == a && LastCode(cs, b) == b
    ensures !(forall c :: c in cs ==> !c.LocalResponse?) ==> LastCode(cs, a) == LastCode(cs, b)
  {
    if cs != [] {
      var init := cs[..|cs| - 1];
      OwnCode(init, a, b);
      assert cs == init + [cs[|cs| - 1]];
    }
  }

  /** When an entry leaves a code behind: only if its HTTP context could not be created, by a
      guest that had already sent a response. */
  predicate LeavesCode(s: State, t: Step)
    requires Enabled(s, t)
  {
    && (t.Request_? || t.Observe?)
    && !Succeeds(s, t.r, t.p, t.creation) && LastCode(CreationCalls(s, t.r, t.p, t.creation), 0) != 0
  }

  lemma CodeIsLeftExactlyWhen(s: State, t: Step)
    requires Inv(s) && s.code == 0 && Enabled(s, t)
    ensures Next(s, t).code == 0 <==> !LeavesCode(s, t)
  {
    hide Inv;
    match t
    case Begin(r) =>
    case Destroy(r) =>
    case Response(r, answered, c, run) =>
      ResponseHasContext(s, r, c, run);
    case Request_(r, p, c, run) =>
      EntryLeavesCode(s, r, p, c, run);
    case Observe(r, p, c, run) =>
      EntryLeavesCode(s, r, p, c, run);
  }

  lemma EntryLeavesCode(s: State, r: ReqId, p: CtxId, c: Creation, run: Run)
    requires r in s.reqs && s.code == 0
    ensures OnHttp(s, r, p, c, run).0.code
         == if Succeeds(s, r, p, c) then 0 else LastCode(CreationCalls(s, r, p, c), 0)
  {
    EntryPerforms(s, r, p, c, run);
    assert CreationCalls(s, r, p, c) + [] == CreationCalls(s, r, p, c);
    CodeIsLast(s, r, p, CreationCalls(s, r, p, c));
  }

  ghost predicate SomeStepLeavesCode(ts: seq<Step>)
    requires Legal(ts)
    decreases |ts|
  {
    ts != []
    && (SomeStepLeavesCode(ts[..|ts| - 1]) || LeavesCode(After(ts[..|ts| - 1]), ts[|ts| - 1]))
  }

  /** So the shared code is 0 between the entries of any run in which that never happens. */
  lemma {:induction false} CodeIsClearBetweenEntries(ts: seq<Step>)
    requires Legal(ts) && !SomeStepLeavesCode(ts)
    ensures After(ts).code == 0
  {
    hide Inv;
    if ts != [] {
      CodeIsClearBetweenEntries(ts[..|ts| - 1]);
      CodeIsLeftExactlyWhen(After(ts[..|ts| - 1]), ts[|ts| - 1]);
    }
  }
}
