/** How the driver of a request ends: which guests keep it going, which end it, which leave it
    stuck, and whose response body it hands out. */
module DriverGuarantees {
  import opened Common
  import opened Protocol
  import opened ProtocolGuarantees

  // ------------------------------------------------------------------------------------
  // One turn of the loop

  /** What a result does to the driver of p, in terms of the slot that goes with it. */
  function Verdict(p: CtxId, slot: Option<Pending>, rc: int, code: nat, body: Handed): Phase
    requires code < UINT32
  {
    if slot.Some? then (if slot.value.hasMap then Waiting(p) else Finished(Crashed))
    else if rc < 0 then Finished(Failed)
    else if Signed(code) >= 100 then Finished(Exited(Signed(code), body))
    else if rc >= 100 then Finished(Exited(rc, body))
    else if rc == 0 then Finished(Passed)
    else if rc == 1 then Finished(Crashed)
    else Finished(Spinning)
  }

  lemma DriveVerdict(s: State, r: ReqId, p: CtxId, rc: int, code: nat)
    requires r in s.reqs && code < UINT32
    ensures Drive(s, r, p, Decide(s.reqs[r].callout, rc, code)).reqs[r].phase
         == Verdict(p, s.reqs[r].callout, rc, code, FetchLocalBody(s))
  {
  }

  /** The first turn: an entry without a context ends the driver, any other one is judged by the
      slot, the guest's result and the code. */
  lemma FirstTurn(s: State, r: ReqId, p: CtxId, c: Creation, run: Run)
    requires Inv(s) && Enabled(s, Request_(r, p, c, run))
    ensures var cs := CallsOf(s, r, p, c, run);
      LastCode(cs, s.code) < UINT32
      && Next(s, Request_(r, p, c, run)).reqs[r].phase
         == if Succeeds(s, r, p, c) then
              Verdict(p, SlotAfter(s.reqs[r].callout, p, cs), run.rc, LastCode(cs, s.code),
                      FetchLocalBody(PerformAll(s, r, p, cs)))
            else Finished(Failed)
  {
    hide Inv, OnHttp, CallsOf, LastCode, SlotAfter, PerformAll;
    InvCode(s);
    var cs := CallsOf(s, r, p, c, run);
    LastCodeBound(cs, s.code);
    ResultOfEntry(s, r, p, c, run);
    SlotIsOwn(s, r, p, cs);
    if Succeeds(s, r, p, c) {
      DriveVerdict(OnHttp(s, r, p, c, run).0, r, p, run.rc, LastCode(cs, s.code));
    }
  }

  lemma InvCode(s: State)
    requires Inv(s)
    ensures s.code < UINT32
    ensures forall r :: r in s.reqs && s.reqs[r].phase.Waiting? ==> s.reqs[r].callout.None?
  {
  }

  /** Every later turn: the callback has no result of its own, so what counts is whether it
      failed, what it has registered and what it has sent. */
  lemma LaterTurn(s: State, r: ReqId, answered: bool, c: Creation, run: Run)
    requires Inv(s) && Enabled(s, Response(r, answered, c, run))
    ensures LastCode(run.calls, s.code) < UINT32
    ensures var p := s.reqs[r].phase.ctx;
      Next(s, Response(r, answered, c, run)).reqs[r].phase
      == Verdict(p, SlotAfter(None, p, run.calls), if run.rc < 0 then NGX_ERROR else NGX_OK,
                 LastCode(run.calls, s.code), FetchLocalBody(PerformAll(s, r, p, run.calls)))
  {
    hide Inv, LastCode, SlotAfter, PerformAll, LastSize, LastStored;
    InvCode(s);
    var p := s.reqs[r].phase.ctx;
    ResponseHasContext(s, r, c, run);
    LastCodeBound(run.calls, s.code);
    CodeIsLast(CallBack(s, r, p, answered), r, p, run.calls);
    SlotIsOwn(CallBack(s, r, p, answered), r, p, run.calls);
    BodyIsLast(CallBack(s, r, p, answered), r, p, run.calls);
    BodyIsLast(s, r, p, run.calls);
    DriveVerdict(OnCallResponse(s, r, p, answered, c, run).0, r, p, if run.rc < 0 then NGX_ERROR else NGX_OK,
                 LastCode(run.calls, s.code));
  }

  // ------------------------------------------------------------------------------------
  // Whose body goes out

  /** The size that was announced last. */
  function LastSize(cs: seq<HostCall>, before: int): int {
    if cs == [] then before
    else if cs[|cs| - 1].LocalResponse? then cs[|cs| - 1].size
    else LastSize(cs[..|cs| - 1], before)
  }

  /** What the last allocation left. */
  function LastStored(r: ReqId, cs: seq<HostCall>, before: Buffer): Buffer {
    if cs == [] then before
    else if Stores(cs[|cs| - 1]) then Stored(r, cs[|cs| - 1])
    else LastStored(r, cs[..|cs| - 1], before)
  }

  /** The bytes that were taken over last, unless an allocation has failed since. */
  function OwnBytes(cs: seq<HostCall>): Option<Bytes> {
    if cs == [] then None
    else
      var c := cs[|cs| - 1];
      if Stores(c) then (if c.room then Some(c.memory[..c.size]) else None) else OwnBytes(cs[..|cs| - 1])
  }

  predicate Replies(cs: seq<HostCall>) {
    exists c :: c in cs && c.LocalResponse?
  }

  lemma {:induction false} BodyIsLast(s: State, r: ReqId, p: CtxId, cs: seq<HostCall>)
    requires r in s.reqs
    ensures PerformAll(s, r, p, cs).bodyLen == LastSize(cs, s.bodyLen)
    ensures PerformAll(s, r, p, cs).body == LastStored(r, cs, s.body)
  {
    if cs != [] {
      BodyIsLast(s, r, p, cs[..|cs| - 1]);
    }
  }

  lemma {:induction false} SizeIsOwn(cs: seq<HostCall>, a: int, b: int)
    ensures Replies(cs) ==> LastSize(cs, a) == LastSize(cs, b)
    ensures !Replies(cs) ==> LastSize(cs, a) == a && LastSize(cs, b) == b && OwnBytes(cs).None?
  {
    if cs != [] {
      SizeIsOwn(cs[..|cs| - 1], a, b);
      assert cs == cs[..|cs| - 1] + [cs[|cs| - 1]];
    }
  }

  lemma {:induction false} StoredIsOwn(r: ReqId, cs: seq<HostCall>, b: Buffer)
    ensures OwnBytes(cs).Some? ==> LastStored(r, cs, b) == Held(r, OwnBytes(cs).value)
    ensures OwnBytes(cs).None? ==> LastStored(r, cs, b) == Null || LastStored(r, cs, b) == b
  {
    if cs != [] {
      StoredIsOwn(r, cs[..|cs| - 1], b);
    }
  }

  /** The body that follows host calls reads no foreign memory and depends on nothing that was
      left behind by anyone else. */
  ghost predicate BodyIsolated(s: State, r: ReqId, p: CtxId, cs: seq<HostCall>)
    requires r in s.reqs
  {
    forall n: int, b: Buffer ::
      && FetchLocalBody(PerformAll(s.(bodyLen := n, body := b), r, p, cs)) == FetchLocalBody(PerformAll(s, r, p, cs))
      && FetchLocalBody(PerformAll(s.(bodyLen := n, body := b), r, p, cs)) != BadRead
  }

  /** The calls have announced a size, and it is 0 or covered by the bytes they have taken over,
      no allocation having failed since. */
  predicate SizeIsCovered(cs: seq<HostCall>) {
    && Replies(cs)
    && var n := LastSize(cs, 0);
       n == 0 || (OwnBytes(cs).Some? && 0 < n <= |OwnBytes(cs).value|)
  }

  /** What goes out, whatever was there before. */
  lemma BodyWhenCovered(s: State, r: ReqId, p: CtxId, cs: seq<HostCall>)
    requires r in s.reqs && SizeIsCovered(cs)
    ensures FetchLocalBody(PerformAll(s, r, p, cs))
         == if LastSize(cs, 0) == 0 then NoBody else Body(OwnBytes(cs).value[..LastSize(cs, 0)])
  {
    hide PerformAll;
    BodyIsLast(s, r, p, cs);
    SizeIsOwn(cs, s.bodyLen, 0);
    StoredIsOwn(r, cs, s.body);
  }

  lemma BodyIsolatedExactlyWhen(s: State, r: ReqId, p: CtxId, cs: seq<HostCall>)
    requires r in s.reqs
    ensures BodyIsolated(s, r, p, cs) <==> SizeIsCovered(cs)
  {
    hide PerformAll, FetchLocalBody, LastSize, OwnBytes, SizeIsCovered;
    if SizeIsCovered(cs) {
      forall n: int, b: Buffer
        ensures FetchLocalBody(PerformAll(s.(bodyLen := n, body := b), r, p, cs))
          == FetchLocalBody(PerformAll(s, r, p, cs))
        ensures FetchLocalBody(PerformAll(s.(bodyLen := n, body := b), r, p, cs)) != BadRead
      {
        BodyWhenCovered(s.(bodyLen := n, body := b), r, p, cs);
        BodyWhenCovered(s, r, p, cs);
      }
    } else {
      UncoveredIsBad(s.(bodyLen := 1, body := Null), r, p, cs);
      assert FetchLocalBody(PerformAll(s.(bodyLen := 1, body := Null), r, p, cs)) == BadRead;
    }
  }

  /** A null body of some length is what shows it. */
  lemma UncoveredIsBad(s: State, r: ReqId, p: CtxId, cs: seq<HostCall>)
    requires r in s.reqs && s.bodyLen == 1 && s.body == Null && !SizeIsCovered(cs)
    ensures FetchLocalBody(PerformAll(s, r, p, cs)) == BadRead
  {
    hide PerformAll;
    BodyIsLast(s, r, p, cs);
    SizeIsOwn(cs, s.bodyLen, 0);
    StoredIsOwn(r, cs, s.body);
  }

  lemma {:induction false} NothingStored(r: ReqId, cs: seq<HostCall>, n: int, b: Buffer)
    requires !Replies(cs)
    ensures LastSize(cs, n) == n && LastStored(r, cs, b) == b
  {
    if cs != [] {
      assert cs == cs[..|cs| - 1] + [cs[|cs| - 1]];
      NothingStored(r, cs[..|cs| - 1], n, b);
    }
  }

  /** When the last response was answered OK, its own bytes are what goes out, as many as it said;
      a negative size is answered OK, too, and read as a huge one. */
  lemma LastOkBodyGoesOut(s: State, r: ReqId, p: CtxId, a: seq<HostCall>, c: HostCall, b: seq<HostCall>)
    requires r in s.reqs
    requires c.LocalResponse? && c.headersOk && (c.size > 0 ==> c.size <= |c.memory| && c.room)
    requires !Replies(b)
    ensures FetchLocalBody(PerformAll(s, r, p, a + [c] + b))
         == if c.size == 0 then NoBody else if c.size > 0 then Body(c.memory[..c.size]) else BadRead
  {
    PerformConcat(s, r, p, a + [c], b);
    var s' := PerformAll(s, r, p, a + [c]);
    BodyIsLast(s', r, p, b);
    BodyIsLast(s, r, p, a + [c]);
    assert (a + [c])[..|a + [c]| - 1] == a;
    NothingStored(r, b, s'.bodyLen, s'.body);
  }

  // ------------------------------------------------------------------------------------
  // Whole runs

  /** A first turn that leaves the driver stuck: its callout has no header map, or its result
      asks for a callout that is not there, or its result is none of those the loop knows. */
  predicate SticksFirst(s: State, r: ReqId, p: CtxId, c: Creation, run: Run)
    requires r in s.reqs
  {
    var slot := SlotAfter(s.reqs[r].callout, p, CallsOf(s, r, p, c, run));
    var code := LastCode(CallsOf(s, r, p, c, run), s.code);
    && Succeeds(s, r, p, c)
    && (if slot.Some? then !slot.value.hasMap
        else 1 <= run.rc < 100 && (code < 100 || code >= INT32_LIMIT))
  }

  /** A later turn can only be stuck on a callout without a header map. */
  predicate SticksLater(p: CtxId, run: Run) {
    var slot := SlotAfter(None, p, run.calls);
    slot.Some? && !slot.value.hasMap
  }

  predicate Sticks(s: State, t: Step)
    requires Enabled(s, t)
  {
    match t
    case Request_(r, p, c, run) => SticksFirst(s, r, p, c, run)
    case Response(r, _, _, run) => SticksLater(s.reqs[r].phase.ctx, run)
    case _ => false
  }

  lemma StuckAfterTurn(s: State, t: Step)
    requires Inv(s) && Enabled(s, t) && (t.Request_? || t.Response?)
    ensures t.r in Next(s, t).reqs && (!Alive(Next(s, t).reqs[t.r]) <==> Sticks(s, t))
    ensures t.Response? ==> Next(s, t).reqs[t.r].phase != Finished(Spinning)
  {
    hide Inv, SlotAfter, LastCode, PerformAll, CallsOf;
    match t
    case Request_(r, p, c, run) =>
      FirstTurn(s, r, p, c, run);
      InvCode(s);
      LastCodeBound(CallsOf(s, r, p, c, run), s.code);
    case Response(r, answered, c, run) =>
      LaterTurn(s, r, answered, c, run);
  }

  lemma {:induction false} OthersUntouched(s: State, r: ReqId, p: CtxId, q: ReqId, cs: seq<HostCall>)
    requires r in s.reqs && q != r
    ensures q in PerformAll(s, r, p, cs).reqs <==> q in s.reqs
    ensures q in s.reqs ==> PerformAll(s, r, p, cs).reqs[q] == s.reqs[q]
  {
    if cs != [] {
      OthersUntouched(s, r, p, q, cs[..|cs| - 1]);
    }
  }

  /** A step of one request leaves the records of all others as they are. */
  lemma StepIsLocal(s: State, t: Step, q: ReqId)
    requires Inv(s) && Enabled(s, t) && q != t.r
    ensures q in Next(s, t).reqs <==> q in s.reqs
    ensures q in s.reqs ==> Next(s, t).reqs[q] == s.reqs[q]
  {
    hide Inv, OnHttp;
    InvCode(s);
    match t
    case Begin(r) =>
    case Destroy(r) =>
    case Response(r, answered, c, run) =>
      ResponseHasContext(s, r, c, run);
      OthersUntouched(CallBack(s, r, s.reqs[r].phase.ctx, answered), r, s.reqs[r].phase.ctx, q, run.calls);
    case Request_(r, p, c, run) =>
      EntryIsLocal(s, r, p, c, run, q);
    case Observe(r, p, c, run) =>
      EntryIsLocal(s, r, p, c, run, q);
  }

  lemma EntryIsLocal(s: State, r: ReqId, p: CtxId, c: Creation, run: Run, q: ReqId)
    requires r in s.reqs && s.code < UINT32 && q != r
    ensures q in OnHttp(s, r, p, c, run).0.reqs <==> q in s.reqs
    ensures q in s.reqs ==> OnHttp(s, r, p, c, run).0.reqs[q] == s.reqs[q]
    ensures r in OnHttp(s, r, p, c, run).0.reqs
  {
    hide OnHttp, PerformAll;
    EntryPerforms(s, r, p, c, run);
    OthersUntouched(s, r, p, q, CallsOf(s, r, p, c, run));
  }

  /** Some turn of r in the run left its driver stuck. */
  ghost predicate EverSticks(ts: seq<Step>, r: ReqId)
    requires Legal(ts)
    decreases |ts|
  {
    ts != []
    && var init := ts[..|ts| - 1];
       EverSticks(init, r) || (ts[|ts| - 1].r == r && Sticks(After(init), ts[|ts| - 1]))
  }

  /** In every run, however requests interleave, a request that is still there has a stuck driver
      exactly when one of its own turns got it stuck. */
  lemma {:induction false} StuckExactlyWhen(ts: seq<Step>, r: ReqId)
    requires Legal(ts) && r in After(ts).reqs
    ensures !Alive(After(ts).reqs[r]) <==> EverSticks(ts, r)
    decreases |ts|
  {
    hide Inv;
    if ts != [] {
      var init, t := ts[..|ts| - 1], ts[|ts| - 1];
      var s := After(init);
      if t.r != r {
        StepIsLocal(s, t, r);
        StuckExactlyWhen(init, r);
      } else if t.Begin? {
        NothingBeforeBegin(init, r);
      } else if t.Observe? {
        StuckExactlyWhen(init, r);
        InvCode(s);
        OnHttpKeepsPhase(s, r, t.p, t.creation, t.run);
      } else {
        StuckExactlyWhen(init, r);
        StuckAfterTurn(s, t);
      }
    }
  }

  lemma SeenGrows(s: State, t: Step)
    requires Inv(s) && Enabled(s, t)
    ensures s.seen <= Next(s, t).seen && t.r in Next(s, t).seen
  {
    InvSeen(s);
    hide Inv, OnHttp;
    match t
    case Begin(r) =>
    case Destroy(r) =>
    case Response(r, answered, c, run) =>
      ResponseHasContext(s, r, c, run);
      PerformAllSeen(CallBack(s, r, s.reqs[r].phase.ctx, answered), r, s.reqs[r].phase.ctx, run.calls);
    case Request_(r, p, c, run) =>
      OnHttpSeen(s, r, p, c, run);
    case Observe(r, p, c, run) =>
      OnHttpSeen(s, r, p, c, run);
  }

  lemma InvSeen(s: State)
    requires Inv(s)
    ensures s.code < UINT32 && forall r :: r in s.reqs ==> r in s.seen
  {
  }

  lemma {:induction false} PerformAllSeen(s: State, r: ReqId, p: CtxId, cs: seq<HostCall>)
    requires r in s.reqs
    ensures PerformAll(s, r, p, cs).seen == s.seen
  {
    if cs != [] {
      PerformAllSeen(s, r, p, cs[..|cs| - 1]);
    }
  }

  lemma OnHttpSeen(s: State, r: ReqId, p: CtxId, c: Creation, run: Run)
    requires r in s.reqs && s.code < UINT32
    ensures OnHttp(s, r, p, c, run).0.seen == s.seen && r in OnHttp(s, r, p, c, run).0.reqs
  {
    hide OnHttp, PerformAll;
    EntryPerforms(s, r, p, c, run);
    PerformAllSeen(s, r, p, CallsOf(s, r, p, c, run));
  }

  lemma {:induction false} NothingBeforeBegin(ts: seq<Step>, r: ReqId)
    requires Legal(ts) && r !in After(ts).seen
    ensures !EverSticks(ts, r)
    decreases |ts|
  {
    hide Inv;
    if ts != [] {
      SeenGrows(After(ts[..|ts| - 1]), ts[|ts| - 1]);
      NothingBeforeBegin(ts[..|ts| - 1], r);
    }
  }

  // ------------------------------------------------------------------------------------
  // Termination

  function CountSteps(ts: seq<Step>, r: ReqId): nat {
    if ts == [] then 0
    else CountSteps(ts[..|ts| - 1], r) + if ts[|ts| - 1].Response? && ts[|ts| - 1].r == r then 1 else 0
  }

  lemma CountSnoc(log: seq<Event>, e: Event, f: Event -> bool)
    ensures CountEvents(log + [e], f) == CountEvents(log, f) + if f(e) then 1 else 0
  {
    assert (log + [e])[..|log + [e]| - 1] == log;
  }

  /** Host calls do nothing but register, so they change no count of other events. */
  lemma {:induction false} PerformAllCounts(s: State, r: ReqId, p: CtxId, cs: seq<HostCall>, f: Event -> bool)
    requires r in s.reqs && forall e: Event :: e.Registered? ==> !f(e)
    ensures CountEvents(PerformAll(s, r, p, cs).log, f) == CountEvents(s.log, f)
  {
    if cs != [] {
      var s1 := PerformAll(s, r, p, cs[..|cs| - 1]);
      PerformAllCounts(s, r, p, cs[..|cs| - 1], f);
      CountSnoc(s1.log, Registered(r, p, s1.nextId), f);
    }
  }

  lemma OnHttpCallbacks(s: State, r: ReqId, p: CtxId, c: Creation, run: Run, q: ReqId)
    requires r in s.reqs && s.code < UINT32
    ensures CountEvents(OnHttp(s, r, p, c, run).0.log, Callbacks(q)) == CountEvents(s.log, Callbacks(q))
    ensures r in OnHttp(s, r, p, c, run).0.reqs
  {
    hide OnHttp, PerformAll;
    EntryPerforms(s, r, p, c, run);
    PerformAllCounts(s, r, p, CallsOf(s, r, p, c, run), Callbacks(q));
  }

  lemma DriveCallbacks(s: State, r: ReqId, p: CtxId, rc: int, q: ReqId)
    requires r in s.reqs
    ensures CountEvents(Drive(s, r, p, rc).log, Callbacks(q)) == CountEvents(s.log, Callbacks(q))
  {
    CountSnoc(s.log, Event.Fetched(r, p, s.reqs[r].calloutId), Callbacks(q));
  }

  lemma StepCallbacks(s: State, t: Step, q: ReqId)
    requires Inv(s) && Enabled(s, t)
    ensures CountEvents(Next(s, t).log, Callbacks(q))
         == CountEvents(s.log, Callbacks(q)) + if t.Response? && t.r == q then 1 else 0
  {
    hide Inv, OnHttp, Drive;
    InvCode(s);
    match t
    case Begin(r) =>
    case Destroy(r) =>
    case Response(r, answered, c, run) =>
      var p := s.reqs[r].phase.ctx;
      ResponseHasContext(s, r, c, run);
      CountSnoc(s.log, CalledBack(r, p, s.reqs[r].calloutId, answered), Callbacks(q));
      PerformAllCounts(CallBack(s, r, p, answered), r, p, run.calls, Callbacks(q));
      DriveCallbacks(OnCallResponse(s, r, p, answered, c, run).0, r, p, OnCallResponse(s, r, p, answered, c, run).1, q);
    case Request_(r, p, c, run) =>
      OnHttpCallbacks(s, r, p, c, run, q);
      DriveCallbacks(OnHttp(s, r, p, c, run).0, r, p, OnHttp(s, r, p, c, run).1, q);
    case Observe(r, p, c, run) =>
      OnHttpCallbacks(s, r, p, c, run, q);
  }

  lemma {:induction false} CallbackTurns(ts: seq<Step>, r: ReqId)
    requires Legal(ts)
    ensures CountSteps(ts, r) == CountEvents(After(ts).log, Callbacks(r))
    decreases |ts|
  {
    hide Inv;
    if ts != [] {
      CallbackTurns(ts[..|ts| - 1], r);
      StepCallbacks(After(ts[..|ts| - 1]), ts[|ts| - 1], r);
    }
  }

  /** The loop ends: in every run the callback turns of a request are at most as many as the
      callouts its guest has registered, and once its driver is not waiting they are exactly as
      many as the callouts that were sent. */
  lemma TurnsAreBounded(ts: seq<Step>, r: ReqId)
    requires Legal(ts)
    ensures CountSteps(ts, r) <= CountEvents(After(ts).log, Registrations(r))
    ensures r in After(ts).reqs && !After(ts).reqs[r].phase.Waiting?
            ==> CountSteps(ts, r) == CountEvents(After(ts).log, Fetches(r))
  {
    CallbackTurns(ts, r);
    CalloutsAreAnsweredInTurn(ts, r);
    SlotCounts(After(ts).log, r);
  }

  // ------------------------------------------------------------------------------------
  // Callouts that are left behind

  /** A turn after which the driver has ended, yet the slot is filled: the HTTP context was refused
      with a callout pending, or the callout has no header map. */
  predicate LeavesSlot(s: State, t: Step)
    requires Enabled(s, t) && (t.Request_? || t.Response?)
  {
    match t
    case Request_(r, p, c, run) =>
      var slot := SlotAfter(s.reqs[r].callout, p, CallsOf(s, r, p, c, run));
      slot.Some? && (!Succeeds(s, r, p, c) || !slot.value.hasMap)
    case Response(r, _, _, run) => SticksLater(s.reqs[r].phase.ctx, run)
  }

  lemma SlotIsLeftExactlyWhen(s: State, t: Step)
    requires Inv(s) && Enabled(s, t) && (t.Request_? || t.Response?)
    ensures t.r in Next(s, t).reqs && (Next(s, t).reqs[t.r].callout.Some? <==> LeavesSlot(s, t))
  {
    hide Inv, SlotAfter, PerformAll, CallsOf;
    InvCode(s);
    match t
    case Request_(r, p, c, run) =>
      EntrySlot(s, r, p, c, run);
    case Response(r, answered, c, run) =>
      var p := s.reqs[r].phase.ctx;
      ResponseHasContext(s, r, c, run);
      SlotIsOwn(CallBack(s, r, p, answered), r, p, run.calls);
  }

  lemma EntrySlot(s: State, r: ReqId, p: CtxId, c: Creation, run: Run)
    requires r in s.reqs && s.code < UINT32
    ensures r in OnHttp(s, r, p, c, run).0.reqs
    ensures var slot := SlotAfter(s.reqs[r].callout, p, CallsOf(s, r, p, c, run));
      && OnHttp(s, r, p, c, run).0.reqs[r].callout == slot
      && (Succeeds(s, r, p, c) && slot.Some? ==> OnHttp(s, r, p, c, run).1 == RC_NEED_HTTP_CALL)
      && (Succeeds(s, r, p, c) && slot.None? ==> OnHttp(s, r, p, c, run).1 != RC_NEED_HTTP_CALL || run.rc == 1)
      && (!Succeeds(s, r, p, c) ==> OnHttp(s, r, p, c, run).1 == NGX_DECLINED)
  {
    hide OnHttp, SlotAfter, PerformAll, CallsOf, LastCode;
    ResultOfEntry(s, r, p, c, run);
    SlotIsOwn(s, r, p, CallsOf(s, r, p, c, run));
  }

  /** Every callout of r in the log was fetched by the driver of the context that registered it. */
  function Straight(log: seq<Event>, r: ReqId): bool {
    log == []
    || (Straight(log[..|log| - 1], r)
        && var e := log[|log| - 1];
           e.Fetched? && e.r == r ==> Track(log[..|log| - 1], r) == Ready(e.id, e.p))
  }

  lemma StraightSnoc(log: seq<Event>, e: Event, r: ReqId)
    ensures Straight(log + [e], r) <==>
            Straight(log, r) && (e.Fetched? && e.r == r ==> Track(log, r) == Ready(e.id, e.p))
  {
    assert (log + [e])[..|log + [e]| - 1] == log;
  }

  lemma {:induction false} PerformAllStraight(s: State, r: ReqId, p: CtxId, cs: seq<HostCall>, q: ReqId)
    requires r in s.reqs
    ensures Straight(PerformAll(s, r, p, cs).log, q) <==> Straight(s.log, q)
  {
    if cs != [] {
      var s1 := PerformAll(s, r, p, cs[..|cs| - 1]);
      PerformAllStraight(s, r, p, cs[..|cs| - 1], q);
      StraightSnoc(s1.log, Registered(r, p, s1.nextId), q);
    }
  }

  /** A turn of a driver that sends, and gets the answer to, the callout that another plugin
      context had left in the slot. */
  predicate Crosses(s: State, t: Step)
    requires Enabled(s, t)
  {
    && t.Request_? && Succeeds(s, t.r, t.p, t.creation)
    && s.reqs[t.r].callout.Some? && s.reqs[t.r].callout.value.hasMap && s.reqs[t.r].callout.value.registrant != t.p
  }

  /** The driver of p goes on from a state whose slot agrees with the log. */
  lemma DriveStraight(s: State, r: ReqId, p: CtxId, rc: int, q: ReqId)
    requires Mid(s, r)
    ensures Straight(Drive(s, r, p, rc).log, q)
       <==> Straight(s.log, q)
            && (q == r && rc == RC_NEED_HTTP_CALL && s.reqs[r].callout.Some? && s.reqs[r].callout.value.hasMap
                ==> s.reqs[r].callout.value.registrant == p)
  {
    StraightSnoc(s.log, Event.Fetched(r, p, s.reqs[r].calloutId), q);
  }

  lemma StepStraight(s: State, t: Step, q: ReqId)
    requires Inv(s) && Enabled(s, t)
    ensures Straight(Next(s, t).log, q) <==> Straight(s.log, q) && !(t.r == q && Crosses(s, t))
  {
    hide Inv, Mid, OnHttp, Drive, PerformAll, SlotAfter, CallsOf, Straight;
    InvCode(s);
    match t
    case Begin(r) =>
    case Destroy(r) =>
    case Response(r, answered, c, run) =>
      ResponseStraight(s, r, answered, c, run, q);
    case Request_(r, p, c, run) =>
      RestIsMid(s, r);
      OnHttpKeeps(s, r, p, c, run);
      EntryStraight(s, r, p, c, run, q);
      EntrySlot(s, r, p, c, run);
      SlotIsKept(s.reqs[r].callout, p, CallsOf(s, r, p, c, run));
      DriveStraight(OnHttp(s, r, p, c, run).0, r, p, OnHttp(s, r, p, c, run).1, q);
    case Observe(r, p, c, run) =>
      EntryStraight(s, r, p, c, run, q);
  }

  lemma EntryStraight(s: State, r: ReqId, p: CtxId, c: Creation, run: Run, q: ReqId)
    requires r in s.reqs && s.code < UINT32
    ensures Straight(OnHttp(s, r, p, c, run).0.log, q) <==> Straight(s.log, q)
  {
    hide OnHttp, PerformAll, Straight;
    EntryPerforms(s, r, p, c, run);
    PerformAllStraight(s, r, p, CallsOf(s, r, p, c, run), q);
  }

  lemma ResponseStraight(s: State, r: ReqId, answered: bool, c: Creation, run: Run, q: ReqId)
    requires Inv(s) && Enabled(s, Response(r, answered, c, run))
    ensures Straight(Next(s, Response(r, answered, c, run)).log, q) <==> Straight(s.log, q)
  {
    hide Inv, Mid, Drive, PerformAll, SlotAfter, Straight;
    var p := s.reqs[r].phase.ctx;
    InvCode(s);
    ResponseHasContext(s, r, c, run);
    CallBackIsMid(s, r, answered);
    StraightSnoc(s.log, CalledBack(r, p, s.reqs[r].calloutId, answered), q);
    PerformAllStraight(CallBack(s, r, p, answered), r, p, run.calls, q);
    SlotIsOwn(CallBack(s, r, p, answered), r, p, run.calls);
    SlotIsKept(None, p, run.calls);
    var rc := if run.rc < 0 then NGX_ERROR else NGX_OK;
    RunKeeps(CallBack(s, r, p, answered), r, p, run.calls, rc);
    DriveStraight(OnCallResponse(s, r, p, answered, c, run).0, r, p, OnCallResponse(s, r, p, answered, c, run).1, q);
  }

  ghost predicate EverCrosses(ts: seq<Step>, r: ReqId)
    requires Legal(ts)
    decreases |ts|
  {
    ts != []
    && var init := ts[..|ts| - 1];
       EverCrosses(init, r) || (ts[|ts| - 1].r == r && Crosses(After(init), ts[|ts| - 1]))
  }

  /** In every run the callouts of a request are sent for, and answered to, the contexts that have
      registered them, unless and only unless some driver found one that another had left. */
  lemma {:induction false} CalloutsStayStraightExactlyWhen(ts: seq<Step>, r: ReqId)
    requires Legal(ts)
    ensures Straight(After(ts).log, r) <==> !EverCrosses(ts, r)
    decreases |ts|
  {
    hide Inv;
    if ts != [] {
      CalloutsStayStraightExactlyWhen(ts[..|ts| - 1], r);
      StepStraight(After(ts[..|ts| - 1]), ts[|ts| - 1], r);
    }
  }

  // ------------------------------------------------------------------------------------
  // Reading a callout's response

  /** Whose response the table of headers holds that all requests of the worker share: Lua takes its
      string buffer for it, and takes it again for the headers of every callout it sends. The callback
      of a call that failed takes no buffer. */
  function TableOf(log: seq<Event>): Option<ReqId> {
    if log == [] then None
    else
      match log[|log| - 1]
      case Registered(_, _, _) => TableOf(log[..|log| - 1])
      case Fetched(_, _, _) => None
      case CalledBack(r, _, _, answered) => if answered then Some(r) else TableOf(log[..|log| - 1])
  }

  /** The module context of r points to that table: each callback of r stores the pointer, which is null
      when the call failed, and nothing else ever does. */
  function Points(log: seq<Event>, r: ReqId): bool {
    if log == [] then false
    else
      var e := log[|log| - 1];
      if e.CalledBack? && e.r == r then e.answered else Points(log[..|log| - 1], r)
  }

  /** What a guest finds that asks for the headers of the response: no headers, those of its own
      response, or whatever is in the table by now. */
  datatype Sight = Nothing | Own | Stale

  function SightOf(log: seq<Event>, r: ReqId): Sight {
    if !Points(log, r) then Nothing else if TableOf(log) == Some(r) then Own else Stale
  }

  lemma SightSnoc(log: seq<Event>, e: Event, q: ReqId)
    ensures TableOf(log + [e])
         == match e
            case Registered(_, _, _) => TableOf(log)
            case Fetched(_, _, _) => None
            case CalledBack(r, _, _, answered) => if answered then Some(r) else TableOf(log)
    ensures Points(log + [e], q) <==> if e.CalledBack? && e.r == q then e.answered else Points(log, q)
  {
    assert (log + [e])[..|log + [e]| - 1] == log;
  }

  lemma {:induction false} PerformAllSight(s: State, r: ReqId, p: CtxId, cs: seq<HostCall>, q: ReqId)
    requires r in s.reqs
    ensures TableOf(PerformAll(s, r, p, cs).log) == TableOf(s.log)
    ensures Points(PerformAll(s, r, p, cs).log, q) <==> Points(s.log, q)
  {
    if cs != [] {
      var s1 := PerformAll(s, r, p, cs[..|cs| - 1]);
      PerformAllSight(s, r, p, cs[..|cs| - 1], q);
      SightSnoc(s1.log, Registered(r, p, s1.nextId), q);
    }
  }

  /** Whatever the callback does, it reads its own response, or none when the call failed. */
  lemma {:induction false} CallbackReadsItsResponse(s: State, r: ReqId, p: CtxId, answered: bool, cs: seq<HostCall>)
    requires r in s.reqs
    ensures SightOf(PerformAll(CallBack(s, r, p, answered), r, p, cs).log, r) == if answered then Own else Nothing
  {
    PerformAllSight(CallBack(s, r, p, answered), r, p, cs, r);
    SightSnoc(s.log, CalledBack(r, p, s.reqs[r].calloutId, answered), r);
  }

  lemma DriveSight(s: State, r: ReqId, p: CtxId, rc: int, q: ReqId)
    requires r in s.reqs
    ensures TableOf(Drive(s, r, p, rc).log)
         == if rc == RC_NEED_HTTP_CALL && s.reqs[r].callout.Some? && s.reqs[r].callout.value.hasMap then None
            else TableOf(s.log)
    ensures Points(Drive(s, r, p, rc).log, q) <==> Points(s.log, q)
  {
    SightSnoc(s.log, Event.Fetched(r, p, s.reqs[r].calloutId), q);
  }

  /** A turn of a driver at whose end it sends a callout: one with a header map that was left in the
      slot or that the turn has registered. */
  predicate Sends(s: State, t: Step)
    requires Enabled(s, t)
  {
    match t
    case Request_(r, p, c, run) =>
      var slot := SlotAfter(s.reqs[r].callout, p, CallsOf(s, r, p, c, run));
      Succeeds(s, r, p, c) && slot.Some? && slot.value.hasMap
    case Response(r, _, _, run) =>
      var slot := SlotAfter(None, s.reqs[r].phase.ctx, run.calls);
      slot.Some? && slot.value.hasMap
    case _ => false
  }

  lemma EntrySight(s: State, r: ReqId, p: CtxId, c: Creation, run: Run, q: ReqId)
    requires r in s.reqs && s.code < UINT32
    ensures TableOf(OnHttp(s, r, p, c, run).0.log) == TableOf(s.log)
    ensures Points(OnHttp(s, r, p, c, run).0.log, q) <==> Points(s.log, q)
  {
    hide OnHttp, PerformAll, TableOf, Points;
    EntryPerforms(s, r, p, c, run);
    PerformAllSight(s, r, p, CallsOf(s, r, p, c, run), q);
  }

  lemma ResponseSight(s: State, r: ReqId, answered: bool, c: Creation, run: Run, q: ReqId)
    requires Inv(s) && Enabled(s, Response(r, answered, c, run))
    ensures var t := Response(r, answered, c, run);
      && TableOf(Next(s, t).log) == (if Sends(s, t) then None else if answered then Some(r) else TableOf(s.log))
      && (Points(Next(s, t).log, q) <==> if r == q then answered else Points(s.log, q))
  {
    hide Inv, Drive, PerformAll, SlotAfter, TableOf, Points;
    InvCode(s);
    var p := s.reqs[r].phase.ctx;
    ResponseHasContext(s, r, c, run);
    SightSnoc(s.log, CalledBack(r, p, s.reqs[r].calloutId, answered), q);
    PerformAllSight(CallBack(s, r, p, answered), r, p, run.calls, q);
    SlotIsOwn(CallBack(s, r, p, answered), r, p, run.calls);
    DriveSight(OnCallResponse(s, r, p, answered, c, run).0, r, p, OnCallResponse(s, r, p, answered, c, run).1, q);
  }

  lemma StepSight(s: State, t: Step, q: ReqId)
    requires Inv(s) && Enabled(s, t)
    ensures TableOf(Next(s, t).log)
         == if Sends(s, t) then None else if t.Response? && t.answered then Some(t.r) else TableOf(s.log)
    ensures Points(Next(s, t).log, q) <==> if t.Response? && t.r == q then t.answered else Points(s.log, q)
  {
    hide Inv, OnHttp, Drive, PerformAll, SlotAfter, CallsOf, TableOf, Points;
    InvCode(s);
    match t
    case Begin(r) =>
    case Destroy(r) =>
    case Response(r, answered, c, run) =>
      ResponseSight(s, r, answered, c, run, q);
    case Request_(r, p, c, run) =>
      EntrySight(s, r, p, c, run, q);
      EntrySlot(s, r, p, c, run);
      DriveSight(OnHttp(s, r, p, c, run).0, r, p, OnHttp(s, r, p, c, run).1, q);
    case Observe(r, p, c, run) =>
      EntrySight(s, r, p, c, run, q);
  }

  /** The last callback of q, if there was one, was that of a call that was answered. */
  ghost predicate AnsweredLast(ts: seq<Step>, q: ReqId) {
    ts != []
    && var t := ts[|ts| - 1];
       if t.Response? && t.r == q then t.answered else AnsweredLast(ts[..|ts| - 1], q)
  }

  /** A call of q has been answered, and from then on no call of another request was, and no driver has
      sent a callout. */
  ghost predicate UndisturbedSince(ts: seq<Step>, q: ReqId)
    requires Legal(ts)
    decreases |ts|
  {
    ts != []
    && var init, t := ts[..|ts| - 1], ts[|ts| - 1];
       !Sends(After(init), t) && if t.Response? && t.answered then t.r == q else UndisturbedSince(init, q)
  }

  /** The table is not that of a request which waits for another answer. */
  ghost predicate TableIsSettled(log: seq<Event>, q: ReqId) {
    TableOf(log) == Some(q) ==> Points(log, q) && !Track(log, q).Flying?
  }

  lemma {:induction false} TablesAreSettled(log: seq<Event>, q: ReqId)
    requires Track(log, q) != Broken
    ensures TableIsSettled(log, q)
  {
    if log != [] {
      TablesAreSettled(log[..|log| - 1], q);
    }
  }

  /** In every run, what a guest of q finds from the end of the last step to the next callback of q: its
      own response exactly when nothing has disturbed it since it came, nothing exactly when no call of
      q was answered or the last one has failed, and otherwise what others have left in the table. */
  lemma {:induction false} ResponseIsReadExactlyWhen(ts: seq<Step>, q: ReqId)
    requires Legal(ts)
    ensures TableOf(After(ts).log) == Some(q) <==> UndisturbedSince(ts, q)
    ensures SightOf(After(ts).log, q) == Own <==> UndisturbedSince(ts, q)
    ensures SightOf(After(ts).log, q) == Nothing <==> !AnsweredLast(ts, q)
    decreases |ts|
  {
    hide Inv, Next, Enabled, TableOf, Points, Sends;
    if ts == [] {
      NothingYet(q);
    } else {
      ResponseIsReadExactlyWhen(ts[..|ts| - 1], q);
      StepSight(After(ts[..|ts| - 1]), ts[|ts| - 1], q);
    }
    NotBroken(After(ts), q);
    TablesAreSettled(After(ts).log, q);
  }

  lemma NothingYet(q: ReqId)
    ensures TableOf(Start.log) == None && !Points(Start.log, q)
  {
  }

  lemma NotBroken(s: State, q: ReqId)
    requires Inv(s)
    ensures Track(s.log, q) != Broken
  {
  }

  // ------------------------------------------------------------------------------------
  // Results in plain numbers

  /** v is c as an int32_t. */
  predicate IsInt32Of(v: int, c: int) {
    -0x8000_0000 <= v < 0x8000_0000 && (c - v) % 0x1_0000_0000 == 0
  }

  lemma SignedIsInt32(v: int, c: int)
    requires IsInt32Of(v, c)
    ensures Signed(c % UINT32) == v
  {
    var k := (c - v) / 0x1_0000_0000;
    assert c == v + k * 0x1_0000_0000;
    if v >= 0 {
      Residue(c, k, v);
    } else {
      Residue(c, k - 1, v + 0x1_0000_0000);
    }
  }

  lemma Residue(c: int, k: int, u: nat)
    requires u < 0x1_0000_0000 && c == k * 0x1_0000_0000 + u
    ensures c % 0x1_0000_0000 == u
  {
  }

  /** The host calls that an entry of r under p makes if it gets its HTTP context. */
  function AllCalls(s: State, r: ReqId, p: CtxId, c: Creation, run: Run): seq<HostCall>
    requires r in s.reqs
  {
    (if p !in s.reqs[r].ctxs && c.Create? then c.calls else []) + run.calls
  }

  /** The host would take a callout, so that a free slot is filled. */
  predicate Registers(c: HostCall) {
    c.HttpCall? && c.allowed && c.memOk && c.timeout >= 0
  }

  /** A slot is filled afterwards exactly when it was, or some call has filled it: then by the first. */
  lemma {:induction false} SlotFilledWhen(q: Option<Pending>, p: CtxId, cs: seq<HostCall>)
    ensures SlotAfter(q, p, cs).Some? <==> q.Some? || exists i :: 0 <= i < |cs| && Registers(cs[i])
    ensures forall i :: 0 <= i < |cs| && q.None? && Registers(cs[i]) && (forall j :: 0 <= j < i ==> !Registers(cs[j]))
              ==> SlotAfter(q, p, cs) == Some(Pending(cs[i].timeout, cs[i].hasMap, p))
  {
    if cs != [] {
      SlotFilledWhen(q, p, cs[..|cs| - 1]);
      assert forall i :: 0 <= i < |cs| - 1 ==> cs[i] == cs[..|cs| - 1][i];
    }
  }

  /** An entry with its HTTP context that starts no callout and whose last local response, if it sends
      one at all, comes with a code that is v as an int32_t. Without one v is what was there before. */
  ghost predicate SaysLast(cs: seq<HostCall>, before: int, v: int) {
    if Replies(cs) then
      exists i :: 0 <= i < |cs| && cs[i].LocalResponse? && IsInt32Of(v, cs[i].resCode)
                  && forall j :: i < j < |cs| ==> !cs[j].LocalResponse?
    else IsInt32Of(v, before)
  }

  lemma {:induction false} LastCodeIsSaid(cs: seq<HostCall>, before: nat, v: int)
    requires before < UINT32 && SaysLast(cs, before, v)
    ensures LastCode(cs, before) < UINT32 && Signed(LastCode(cs, before)) == v
  {
    if cs == [] {
      SignedIsInt32(v, before);
    } else {
      var c, init := cs[|cs| - 1], cs[..|cs| - 1];
      if c.LocalResponse? {
        assert c in cs;
        var i :| 0 <= i < |cs| && cs[i].LocalResponse? && IsInt32Of(v, cs[i].resCode)
                 && forall j :: i < j < |cs| ==> !cs[j].LocalResponse?;
        SignedIsInt32(v, c.resCode);
      } else {
        SaysLastBefore(cs, before, v);
        LastCodeIsSaid(init, before, v);
      }
    }
  }

  lemma SaysLastBefore(cs: seq<HostCall>, before: nat, v: int)
    requires cs != [] && !cs[|cs| - 1].LocalResponse? && SaysLast(cs, before, v)
    ensures SaysLast(cs[..|cs| - 1], before, v)
  {
    var init := cs[..|cs| - 1];
    assert cs == init + [cs[|cs| - 1]];
    if Replies(cs) {
      var i :| 0 <= i < |cs| && cs[i].LocalResponse? && IsInt32Of(v, cs[i].resCode)
               && forall j :: i < j < |cs| ==> !cs[j].LocalResponse?;
      assert init[i] == cs[i] && init[i] in init;
    }
  }

  /** The result of an entry: 1 for a callout; without one the guest's own failure, then a code from 100
      on, as it was given, then the guest's own result. */
  lemma ResultInNumbers(s: State, r: ReqId, p: CtxId, c: Creation, run: Run, v: int)
    requires r in s.reqs && s.code < 0x1_0000_0000 && (p in s.reqs[r].ctxs || (c.Create? && c.ok))
    requires SaysLast(AllCalls(s, r, p, c, run), s.code, v)
    ensures var rc := OnHttp(s, r, p, c, run).1;
      if s.reqs[r].callout.Some? || exists d :: d in AllCalls(s, r, p, c, run) && Registers(d) then rc == 1
      else if run.rc < 0 then rc == run.rc
      else if v >= 100 then rc == v
      else rc == run.rc
  {
    hide OnHttp, SlotAfter, LastCode, SaysLast;
    var cs := AllCalls(s, r, p, c, run);
    assert cs == CallsOf(s, r, p, c, run);
    ResultOfEntry(s, r, p, c, run);
    LastCodeIsSaid(cs, s.code, v);
    SlotFilledWhen(s.reqs[r].callout, p, cs);
    if exists d :: d in cs && Registers(d) {
      var d :| d in cs && Registers(d);
      var i :| 0 <= i < |cs| && cs[i] == d;
    } else {
      assert forall i :: 0 <= i < |cs| ==> cs[i] in cs;
    }
  }

  /** The result of a callback is the same, but for what the guest comes back with: that is -1 for a
      failure and 0 for anything else. */
  lemma ResponseResultInNumbers(s: State, r: ReqId, p: CtxId, answered: bool, c: Creation, run: Run, v: int)
    requires r in s.reqs && s.code < 0x1_0000_0000 && (p in s.reqs[r].ctxs || (c.Create? && c.ok))
    requires SaysLast(AllCalls(s, r, p, c, run), s.code, v)
    ensures var rc := OnCallResponse(s, r, p, answered, c, run).1;
      if s.reqs[r].callout.Some? || exists d :: d in AllCalls(s, r, p, c, run) && Registers(d) then rc == 1
      else if run.rc < 0 then rc == -1
      else if v >= 100 then rc == v
      else rc == 0
  {
    hide OnHttp, OnCallResponse, SaysLast;
    ResponseAsEntry(s, r, p, answered, c, run);
    ResultInNumbers(s, r, p, c, AsEntry(run), v);
  }

  /** How the first turn of a driver ends, in the same terms. */
  lemma FirstTurnInNumbers(s: State, r: ReqId, p: CtxId, c: Creation, run: Run, v: int)
    requires Inv(s) && Enabled(s, Request_(r, p, c, run)) && (p in s.reqs[r].ctxs || (c.Create? && c.ok))
    requires s.reqs[r].callout.None? && forall d :: d in AllCalls(s, r, p, c, run) ==> !Registers(d)
    requires SaysLast(AllCalls(s, r, p, c, run), s.code, v)
    ensures r in Next(s, Request_(r, p, c, run)).reqs
    ensures var phase := Next(s, Request_(r, p, c, run)).reqs[r].phase;
      if run.rc < 0 then phase == Finished(Failed)
      else if v >= 100 then phase.Finished? && phase.outcome.Exited? && phase.outcome.code == v
      else if run.rc >= 100 then phase.Finished? && phase.outcome.Exited? && phase.outcome.code == run.rc
      else if run.rc == 0 then phase == Finished(Passed)
      else if run.rc == 1 then phase == Finished(Crashed)
      else phase == Finished(Spinning)
  {
    hide Inv, Next, SlotAfter, LastCode, SaysLast, PerformAll;
    var cs := AllCalls(s, r, p, c, run);
    assert cs == CallsOf(s, r, p, c, run);
    InvCode(s);
    FirstTurn(s, r, p, c, run);
    LastCodeIsSaid(cs, s.code, v);
    SlotFilledWhen(s.reqs[r].callout, p, cs);
    NextHasRequest(s, Request_(r, p, c, run));
  }

  lemma NextHasRequest(s: State, t: Step)
    requires Inv(s) && Enabled(s, t) && (t.Request_? || t.Response?)
    ensures t.r in Next(s, t).reqs
  {
    hide Inv;
    StuckAfterTurn(s, t);
  }

  /** How a later turn ends, in the same terms. */
  lemma LaterTurnInNumbers(s: State, r: ReqId, answered: bool, c: Creation, run: Run, v: int)
    requires Inv(s) && Enabled(s, Response(r, answered, c, run))
    requires forall d :: d in run.calls ==> !Registers(d)
    requires SaysLast(run.calls, s.code, v)
    ensures r in Next(s, Response(r, answered, c, run)).reqs
    ensures var phase := Next(s, Response(r, answered, c, run)).reqs[r].phase;
      if run.rc < 0 then phase == Finished(Failed)
      else if v >= 100 then phase.Finished? && phase.outcome.Exited? && phase.outcome.code == v
      else phase == Finished(Passed)
  {
    hide Inv, Next, SlotAfter, LastCode, SaysLast, PerformAll;
    LaterTurn(s, r, answered, c, run);
    InvCode(s);
    LastCodeIsSaid(run.calls, s.code, v);
    SlotFilledWhen(None, s.reqs[r].phase.ctx, run.calls);
    NextHasRequest(s, Response(r, answered, c, run));
  }

  /** The first of some calls that registers a callout is the i-th. */
  predicate FirstRegisters(cs: seq<HostCall>, i: nat) {
    i < |cs| && Registers(cs[i]) && forall j :: 0 <= j < i ==> !Registers(cs[j])
  }

  /** A turn that starts a callout, whatever else its guest does and comes back with: the driver waits for
      it, or crashes if it has no header map. */
  lemma CalloutTurnWaits(s: State, t: Step, i: nat)
    requires Inv(s) && Enabled(s, t)
    requires t.Response? || (t.Request_? && (t.p in s.reqs[t.r].ctxs || (t.creation.Create? && t.creation.ok))
                             && s.reqs[t.r].callout.None?)
    requires FirstRegisters(if t.Response? then t.run.calls else AllCalls(s, t.r, t.p, t.creation, t.run), i)
    ensures t.r in Next(s, t).reqs
    ensures var cs := if t.Response? then t.run.calls else AllCalls(s, t.r, t.p, t.creation, t.run);
      Next(s, t).reqs[t.r].phase
      == if !cs[i].hasMap then Finished(Crashed) else Waiting(if t.Response? then s.reqs[t.r].phase.ctx else t.p)
  {
    hide Inv, Next, SlotAfter, LastCode, PerformAll;
    InvCode(s);
    NextHasRequest(s, t);
    match t
    case Response(r, answered, c, run) =>
      LaterTurn(s, r, answered, c, run);
      SlotFilledWhen(None, s.reqs[r].phase.ctx, run.calls);
    case Request_(r, p, c, run) =>
      var cs := AllCalls(s, r, p, c, run);
      assert cs == CallsOf(s, r, p, c, run);
      FirstTurn(s, r, p, c, run);
      SlotFilledWhen(s.reqs[r].callout, p, cs);
  }

  /** From a guest's call of proxy_send_local_response to what the client gets: if the response is the last
      one, was taken over, and there is neither a callout nor a failure, the driver exits with its code
      and its bytes. */
  lemma LocalResponseReachesClient(s: State, r: ReqId, p: CtxId, c: Creation, run: Run,
                                   a: seq<HostCall>, d: HostCall, b: seq<HostCall>)
    requires Inv(s) && Enabled(s, Request_(r, p, c, run)) && (p in s.reqs[r].ctxs || (c.Create? && c.ok))
    requires s.reqs[r].callout.None? && forall e :: e in AllCalls(s, r, p, c, run) ==> !Registers(e)
    requires AllCalls(s, r, p, c, run) == a + [d] + b && d.LocalResponse? && !Replies(b) && run.rc >= 0
    requires d.headersOk && d.size >= 0 && (d.size > 0 ==> d.size <= |d.memory| && d.room)
    requires 100 <= d.resCode < 0x8000_0000
    ensures r in Next(s, Request_(r, p, c, run)).reqs
    ensures Next(s, Request_(r, p, c, run)).reqs[r].phase
         == Finished(Exited(d.resCode, if d.size == 0 then NoBody else Body(d.memory[..d.size])))
  {
    hide Inv, Next, SlotAfter, LastCode, PerformAll, FetchLocalBody;
    var cs := AllCalls(s, r, p, c, run);
    assert cs == CallsOf(s, r, p, c, run);
    InvCode(s);
    SaidLast(s, cs, a, d, b);
    FirstTurn(s, r, p, c, run);
    LastCodeIsSaid(cs, s.code, d.resCode);
    SlotFilledWhen(s.reqs[r].callout, p, cs);
    LastOkBodyGoesOut(s, r, p, a, d, b);
    NextHasRequest(s, Request_(r, p, c, run));
  }

  /** The same from a callback. */
  lemma LocalResponseOfCallbackReachesClient(s: State, r: ReqId, answered: bool, c: Creation, run: Run,
                                             a: seq<HostCall>, d: HostCall, b: seq<HostCall>)
    requires Inv(s) && Enabled(s, Response(r, answered, c, run))
    requires forall e :: e in run.calls ==> !Registers(e)
    requires run.calls == a + [d] + b && d.LocalResponse? && !Replies(b) && run.rc >= 0
    requires d.headersOk && d.size >= 0 && (d.size > 0 ==> d.size <= |d.memory| && d.room)
    requires 100 <= d.resCode < 0x8000_0000
    ensures r in Next(s, Response(r, answered, c, run)).reqs
    ensures Next(s, Response(r, answered, c, run)).reqs[r].phase
         == Finished(Exited(d.resCode, if d.size == 0 then NoBody else Body(d.memory[..d.size])))
  {
    hide Inv, Next, SlotAfter, LastCode, PerformAll, FetchLocalBody;
    var p := s.reqs[r].phase.ctx;
    InvCode(s);
    SaidLast(s, run.calls, a, d, b);
    LaterTurn(s, r, answered, c, run);
    LastCodeIsSaid(run.calls, s.code, d.resCode);
    SlotFilledWhen(None, p, run.calls);
    LastOkBodyGoesOut(s, r, p, a, d, b);
    NextHasRequest(s, Response(r, answered, c, run));
  }

  lemma SaidLast(s: State, cs: seq<HostCall>, a: seq<HostCall>, d: HostCall, b: seq<HostCall>)
    requires cs == a + [d] + b && d.LocalResponse? && !Replies(b) && -0x8000_0000 <= d.resCode < 0x8000_0000
    ensures SaysLast(cs, s.code, d.resCode)
  {
    assert cs[|a|] == d && d in cs;
    forall j | |a| < j < |cs|
      ensures !cs[j].LocalResponse?
    {
      assert cs[j] == b[j - |a| - 1] && cs[j] in b;
    }
  }

  /** What a response leaves behind, of whatever becomes of it: always its code and its size, and its
      bytes only if the headers were taken, the body is all in the guest's memory and the pool has room;
      if just the room is missing no bytes are left, and else those that were there before. */
  lemma WhatResponseLeaves(s: State, r: ReqId, p: CtxId, d: HostCall)
    requires r in s.reqs && d.LocalResponse?
    ensures var s' := Perform(s, r, p, d);
      && s'.code < 0x1_0000_0000 && (s'.code - d.resCode) % 0x1_0000_0000 == 0 && s'.bodyLen == d.size
      && s' == s.(code := s'.code, bodyLen := s'.bodyLen, body := s'.body)
      && s'.body == if !d.headersOk || d.size <= 0 || d.size > |d.memory| then s.body
                    else if d.room then Held(r, d.memory[..d.size])
                    else Null
  {
    var u := d.resCode % UINT32;
    assert d.resCode == d.resCode / UINT32 * UINT32 + u;
    Residue(d.resCode - u, d.resCode / UINT32, 0);
    Residue(d.resCode - u + UINT32, d.resCode / UINT32 + 1, 0);
  }
}
