/**
 The HTTP callout protocol of one worker: a single pending slot per request, callout ids that
 are shared by all requests, the result code that is shared by all requests, and one Lua
 driver per request that yields while its callout is in flight, so that other requests run
 in between. A step goes from one yield of a driver to its next, or to its end.
 */
module Protocol {
  import opened Common

  type ReqId = nat
  type CtxId = nat

  const RC_NEED_HTTP_CALL := 1

  /** proxy_wasm_callout_t, as far as it decides anything here: whether its header map is there
      or a null pointer, which is what a guest that passes no headers leaves. `registrant` is history:
      the plugin context whose guest has registered it. */
  datatype Pending = Pending(timeout: int, hasMap: bool, registrant: CtxId)

  /** The data pointer of wmcf->body: null, or an allocation of its own length from the pool of
      the request it was made for, which goes away with that request. */
  datatype Buffer = Null | Held(owner: ReqId, bytes: Bytes)

  /** What Lua gets for a body: none, some bytes, or a read of memory that is not the body's. */
  datatype Handed = NoBody | Body(bytes: Bytes) | BadRead

  /** How the driver of a request ended. A driver that spins never yields again, and one that crashes
      has followed a null pointer: either takes the worker down. The other requests of a model that has
      got there go on, so what is said of them from then on is said of no worker. */
  datatype Outcome =
    | Passed
    | Failed
    | Exited(code: int, body: Handed)
    | Spinning
    | Crashed

  /** A driver works for one plugin context. */
  datatype Phase = Idle | Waiting(ctx: CtxId) | Finished(outcome: Outcome)

  /** The module context of a request, with the plugin contexts it has an HTTP context under, and
      where its driver stands. */
  datatype Request = Request(callout: Option<Pending>, calloutId: nat, ctxs: set<CtxId>, phase: Phase)

  datatype Event =
    | Registered(r: ReqId, p: CtxId, id: nat)
    | Fetched(r: ReqId, p: CtxId, id: nat)
    | CalledBack(r: ReqId, p: CtxId, id: nat, answered: bool)

  /** `code`, `bodyLen` and `body` are ngx_http_wasm_main_conf_t, `nextId` is cur_callout_id.
      `log` and `seen` are history. */
  datatype State = State(code: nat, bodyLen: int, body: Buffer, nextId: nat, reqs: map<ReqId, Request>,
                         log: seq<Event>, seen: set<ReqId>)

  const Start := State(0, 0, Null, 0, map[], [], {})

  /** The calls of a guest that matter here, with what the host answers on the way.
      `allowed`: proxy_http_call got past its own checks; `memOk`: the request pool has memory.
      `memory` is the guest's memory from the body's address on, `room` says whether the request
      pool has memory for the body. */
  datatype HostCall =
    | HttpCall(allowed: bool, memOk: bool, timeout: int, hasMap: bool)
    | LocalResponse(resCode: int, size: int, memory: Bytes, headersOk: bool, room: bool)

  /** One call of a guest callback: the host calls it makes and the result it comes back with. */
  datatype Run = Run(calls: seq<HostCall>, rc: int)

  /** How a missing HTTP context is made: not at all for want of memory, or by running the guest,
      which accepts or refuses it. */
  datatype Creation = NoMemory | Create(calls: seq<HostCall>, ok: bool)

  /** A uint32_t read back as an int32_t. */
  function Signed(u: nat): int
    requires u < UINT32
  {
    if u >= INT32_LIMIT then u - UINT32 else u
  }

  // ------------------------------------------------------------------------------------
  // Host calls

  /** ngx_http_wasm_call_register. */
  function Register(s: State, r: ReqId, p: CtxId, timeout: int, hasMap: bool, memOk: bool): (State, int)
    requires r in s.reqs
  {
    if s.reqs[r].callout.Some? then (s, NGX_ERROR)
    else if !memOk then (s, NGX_DECLINED)
    else if timeout < 0 then (s, NGX_ERROR)
    else
      (s.(reqs := s.reqs[r := s.reqs[r].(callout := Some(Pending(timeout, hasMap, p)), calloutId := s.nextId)],
          nextId := (s.nextId + 1) % UINT32,
          log := s.log + [Registered(r, p, s.nextId)]), NGX_OK)
  }

  /** The call gets as far as the allocation of the body. */
  predicate Stores(c: HostCall) {
    c.LocalResponse? && c.headersOk && 0 < c.size <= |c.memory|
  }

  /** What the allocation leaves in the data pointer. */
  function Stored(r: ReqId, c: HostCall): Buffer
    requires Stores(c)
  {
    if c.room then Held(r, c.memory[..c.size]) else Null
  }

  /** proxy_send_local_response, as far as the main configuration goes: the code and the length
      are set before anything can fail, the bytes are copied last. */
  function SendLocal(s: State, r: ReqId, c: HostCall): State
    requires c.LocalResponse?
  {
    var s' := s.(code := c.resCode % UINT32, bodyLen := c.size);
    if Stores(c) then s'.(body := Stored(r, c)) else s'
  }

  function Perform(s: State, r: ReqId, p: CtxId, c: HostCall): (s': State)
    requires r in s.reqs
    ensures s'.reqs.Keys == s.reqs.Keys
    ensures s.code < UINT32 ==> s'.code < UINT32
  {
    match c
    case HttpCall(allowed, memOk, timeout, hasMap) =>
      if allowed then Register(s, r, p, timeout, hasMap, memOk).0 else s
    case LocalResponse(_, _, _, _, _) => SendLocal(s, r, c)
  }

  function PerformAll(s: State, r: ReqId, p: CtxId, cs: seq<HostCall>): (s': State)
    requires r in s.reqs
    ensures s'.reqs.Keys == s.reqs.Keys
    ensures s.code < UINT32 ==> s'.code < UINT32
  {
    if cs == [] then s else Perform(PerformAll(s, r, p, cs[..|cs| - 1]), r, p, cs[|cs| - 1])
  }

  // ------------------------------------------------------------------------------------
  // Entries

  /** ngx_http_wasm_handle_rc_before_proxy. */
  function HandleRc(s: State, r: ReqId, rc: int): (State, int)
    requires r in s.reqs && s.code < UINT32
  {
    var code := Signed(s.code);
    var s' := s.(code := 0);
    (s', if s.reqs[r].callout.Some? then RC_NEED_HTTP_CALL
         else if rc < 0 then rc
         else if code >= 100 then code
         else rc)
  }

  function AddCtx(s: State, r: ReqId, p: CtxId): State
    requires r in s.reqs
  {
    s.(reqs := s.reqs[r := s.reqs[r].(ctxs := s.reqs[r].ctxs + {p})])
  }

  /** ngx_http_wasm_fetch_http_ctx: the HTTP context is there already, or is made now. */
  function Fetch(s: State, r: ReqId, p: CtxId, c: Creation): (res: (State, bool))
    requires r in s.reqs
    ensures res.0.reqs.Keys == s.reqs.Keys
    ensures s.code < UINT32 ==> res.0.code < UINT32
  {
    if p in s.reqs[r].ctxs then (s, true)
    else
      match c
      case NoMemory => (s, false)
      case Create(cs, ok) =>
        var s1 := PerformAll(s, r, p, cs);
        (if ok then AddCtx(s1, r, p) else s1, ok)
  }

  /** ngx_http_wasm_on_http: an entry that does not get its HTTP context leaves code and callout alone. */
  function OnHttp(s: State, r: ReqId, p: CtxId, c: Creation, run: Run): (State, int)
    requires r in s.reqs && s.code < UINT32
  {
    var (s1, ok) := Fetch(s, r, p, c);
    if !ok then (s1, NGX_DECLINED) else HandleRc(PerformAll(s1, r, p, run.calls), r, run.rc)
  }

  /** CalledBack is logged when the callback starts, with the id it is given. It is run whether the
      HTTP call was answered or failed. */
  function CallBack(s: State, r: ReqId, p: CtxId, answered: bool): State
    requires r in s.reqs
  {
    s.(log := s.log + [CalledBack(r, p, s.reqs[r].calloutId, answered)])
  }

  /** ngx_http_wasm_on_http_call_resp: the callback has no result of its own, so it is NGX_OK or
      NGX_ERROR. */
  function OnCallResponse(s: State, r: ReqId, p: CtxId, answered: bool, c: Creation, run: Run): (State, int)
    requires r in s.reqs && s.code < UINT32
  {
    var (s1, ok) := Fetch(s, r, p, c);
    if !ok then (s1, NGX_DECLINED)
    else
      HandleRc(PerformAll(CallBack(s1, r, p, answered), r, p, run.calls), r, if run.rc < 0 then NGX_ERROR else NGX_OK)
  }

  // ------------------------------------------------------------------------------------
  // The driver

  /** ngx_http_wasm_fetch_local_body and the copy that Lua makes of it. The length is set with
      every response, the bytes only with one that gets as far as copying them, so the two may
      belong to different responses; a negative length is a huge size_t. */
  function FetchLocalBody(s: State): Handed {
    if s.bodyLen == 0 then NoBody
    else if s.body.Held? && s.body.owner in s.reqs && 0 < s.bodyLen <= |s.body.bytes|
    then Body(s.body.bytes[..s.bodyLen])
    else BadRead
  }

  function End(s: State, r: ReqId, o: Outcome): State
    requires r in s.reqs
  {
    s.(reqs := s.reqs[r := s.reqs[r].(phase := Finished(o))])
  }

  /** ngx_http_wasm_call_get takes the callout; the driver yields while it is under way. */
  function FetchCallout(s: State, r: ReqId, p: CtxId): State
    requires r in s.reqs
  {
    s.(reqs := s.reqs[r := s.reqs[r].(callout := None, phase := Waiting(p))],
       log := s.log + [Fetched(r, p, s.reqs[r].calloutId)])
  }

  /** The loop of on_http_request from a result to the next yield or to the end. */
  function Drive(s: State, r: ReqId, p: CtxId, rc: int): State
    requires r in s.reqs
  {
    if rc < 0 then End(s, r, Failed)
    else if rc >= 100 then End(s, r, Exited(rc, FetchLocalBody(s)))
    else if rc == RC_NEED_HTTP_CALL then
      if s.reqs[r].callout.Some? && s.reqs[r].callout.value.hasMap then FetchCallout(s, r, p) else End(s, r, Crashed)
    else if rc == NGX_OK then End(s, r, Passed)
    else End(s, r, Spinning)
  }

  /** A driver starts or goes on after its callout, in both cases for one plugin context; a phase
      that runs outside a driver; the beginning and the end of a request. */
  datatype Step =
    | Begin(r: ReqId)
    | Request_(r: ReqId, p: CtxId, creation: Creation, run: Run)
    | Response(r: ReqId, answered: bool, creation: Creation, run: Run)
    | Observe(r: ReqId, p: CtxId, creation: Creation, run: Run)
    | Destroy(r: ReqId)

  /** One driver per request at a time; a phase that runs outside a driver cannot start callouts. */
  predicate Enabled(s: State, t: Step) {
    match t
    case Begin(r) => r !in s.seen
    case Request_(r, _, _, _) => r in s.reqs && !s.reqs[r].phase.Waiting? && Alive(s.reqs[r])
    case Response(r, _, _, _) => r in s.reqs && s.reqs[r].phase.Waiting?
    case Observe(r, _, c, run) => r in s.reqs && !s.reqs[r].phase.Waiting? && Alive(s.reqs[r])
                                  && NoHttpCalls(run.calls) && (c.Create? ==> NoHttpCalls(c.calls))
    case Destroy(r) => r in s.reqs
  }

  predicate Alive(q: Request) {
    q.phase != Finished(Spinning) && q.phase != Finished(Crashed)
  }

  predicate NoHttpCalls(cs: seq<HostCall>) {
    forall c :: c in cs && c.HttpCall? ==> !c.allowed
  }

  function Next(s: State, t: Step): (s': State)
    requires s.code < UINT32 && Enabled(s, t)
  {
    match t
    case Begin(r) => s.(reqs := s.reqs[r := Request(None, 0, {}, Idle)], seen := s.seen + {r})
    case Request_(r, p, c, run) =>
      var (s1, rc) := OnHttp(s, r, p, c, run);
      Drive(s1, r, p, rc)
    case Response(r, answered, c, run) =>
      var p := s.reqs[r].phase.ctx;
      var (s1, rc) := OnCallResponse(s, r, p, answered, c, run);
      Drive(s1, r, p, rc)
    case Observe(r, p, c, run) => OnHttp(s, r, p, c, run).0
    case Destroy(r) => s.(reqs := s.reqs - {r})
  }
}
