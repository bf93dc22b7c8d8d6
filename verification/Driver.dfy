/** The callout protocol as the worker runs it: the main configuration, the callout counter and
    the slots are updated in place, and the driver is a loop that is suspended while a callout is
    under way. Every operation is tied to its counterpart in Protocol. */
module Driver {
  import opened Common
  import opened Protocol
  import opened ProtocolGuarantees

  /** What happens while a driver is suspended, whether its HTTP call is answered, and how the callback
      it then runs behaves. */
  datatype Turn = Turn(others: seq<Step>, answered: bool, creation: Creation, response: Run)

  /** The step that ends a suspension. */
  function Resume(r: ReqId, t: Turn): Step {
    Response(r, t.answered, t.creation, t.response)
  }

  // ------------------------------------------------------------------------------------
  // Specification of a whole driver

  /** Steps of other requests, none of them of r. */
  ghost predicate Interleave(s: State, ts: seq<Step>, r: ReqId)
    decreases |ts|
  {
    Inv(s) && (ts == [] || (Enabled(s, ts[0]) && ts[0].r != r && Interleave(Next(s, ts[0]), ts[1..], r)))
  }

  ghost function Apply(s: State, ts: seq<Step>, r: ReqId): State
    requires Interleave(s, ts, r)
    decreases |ts|
  {
    if ts == [] then s else Apply(Next(s, ts[0]), ts[1..], r)
  }

  lemma {:induction false} ApplyKeeps(s: State, ts: seq<Step>, r: ReqId)
    requires Interleave(s, ts, r)
    ensures Inv(Apply(s, ts, r))
    decreases |ts|
  {
    if ts != [] {
      ApplyKeeps(Next(s, ts[0]), ts[1..], r);
    }
  }

  /** The turns fit a driver of r that stands at s: each is a legal interleaving, after which r is
      still suspended. */
  ghost predicate Fits(s: State, r: ReqId, turns: seq<Turn>)
    decreases |turns|
  {
    && Inv(s) && r in s.reqs
    && (turns == [] || !s.reqs[r].phase.Waiting? ||
        (Interleave(s, turns[0].others, r)
         && var s1 := Apply(s, turns[0].others, r);
            Inv(s1) && r in s1.reqs && s1.reqs[r].phase == s.reqs[r].phase
            && Fits(Next(s1, Resume(r, turns[0])), r, turns[1..])))
  }

  /** The steps that lie between the first yield of the driver and its end. */
  ghost function Play(s: State, r: ReqId, turns: seq<Turn>): State
    requires Fits(s, r, turns)
    decreases |turns|
  {
    if turns == [] || !s.reqs[r].phase.Waiting? then s
    else Play(Next(Apply(s, turns[0].others, r), Resume(r, turns[0])), r, turns[1..])
  }

  lemma {:induction false} PlayKeeps(s: State, r: ReqId, turns: seq<Turn>)
    requires Fits(s, r, turns)
    ensures Inv(Play(s, r, turns))
    decreases |turns|
  {
    if turns != [] && s.reqs[r].phase.Waiting? {
      PlayKeeps(Next(Apply(s, turns[0].others, r), Resume(r, turns[0])), r, turns[1..]);
    }
  }

  lemma DriveWaits(s: State, r: ReqId, p: CtxId, rc: int)
    requires r in s.reqs
    ensures r in Drive(s, r, p, rc).reqs
    ensures Drive(s, r, p, rc).reqs[r].phase.Waiting?
       <==> rc == RC_NEED_HTTP_CALL && s.reqs[r].callout.Some? && s.reqs[r].callout.value.hasMap
    ensures Drive(s, r, p, rc).reqs[r].phase.Waiting? ==> Drive(s, r, p, rc).reqs[r].phase.ctx == p
    ensures Drive(s, r, p, rc).code == s.code
  {
  }

  // ------------------------------------------------------------------------------------
  // The worker

  /** What proxy_http_call finds: guest ranges that are in bounds or not, memory in the request
      pool or not, a host that parses or not. */
  datatype CallArguments = CallArguments(
    hasReq: bool, yieldable: bool, hostInBounds: bool, hostRoom: bool, hostParses: bool,
    headersSize: int, headersInBounds: bool, headersRoom: bool,
    bodySize: int, bodyInBounds: bool, bodyRoom: bool,
    timeout: int, registerRoom: bool, idInBounds: bool)

  /** proxy_http_call gets as far as registering the callout. */
  predicate Admitted(c: CallArguments) {
    && c.hasReq && c.yieldable && c.hostInBounds && c.hostRoom && c.hostParses
    && (c.headersSize > 0 ==> c.headersInBounds && c.headersRoom)
    && (c.bodySize > 0 ==> c.bodyInBounds && c.bodyRoom)
  }

  class Worker {
    var code: nat
    var bodyLen: int
    var body: Buffer
    var nextId: nat
    var reqs: map<ReqId, Request>
    var log: seq<Event>
    var seen: set<ReqId>

    function View(): State
      reads this
    {
      State(code, bodyLen, body, nextId, reqs, log, seen)
    }

    constructor ()
      ensures View() == Start
    {
      code, bodyLen, body, nextId, reqs, log, seen := 0, 0, Null, 0, map[], [], {};
    }

    method CallRegister(r: ReqId, p: CtxId, timeout: int, hasMap: bool, memOk: bool) returns (rc: int)
      requires r in reqs
      modifies this
      ensures (View(), rc) == Register(old(View()), r, p, timeout, hasMap, memOk)
    {
      if reqs[r].callout.Some? {
        return NGX_ERROR;
      }
      if !memOk {
        return NGX_DECLINED;
      }
      if timeout < 0 {
        return NGX_ERROR;
      }
      reqs := reqs[r := reqs[r].(callout := Some(Pending(timeout, hasMap, p)), calloutId := nextId)];
      log := log + [Registered(r, p, nextId)];
      nextId := (nextId + 1) % UINT32;
      return NGX_OK;
    }

    /** proxy_http_call. A guest that gets OK gets the id of its callout. A guest that gets an
        error has no callout pending that was not there before, unless the error is that its id
        cell is out of bounds: then the callout goes out all the same. */
    method ProxyHttpCall(r: ReqId, p: CtxId, c: CallArguments) returns (rc: int, id: Option<nat>)
      requires r in reqs
      modifies this
      ensures View() == Perform(old(View()), r, p, HttpCall(Admitted(c), c.registerRoom, c.timeout, c.headersSize > 0))
      ensures id == if rc == PROXY_RESULT_OK then Some(old(nextId)) else None
      ensures rc == PROXY_RESULT_OK <==>
              Admitted(c) && old(reqs[r]).callout.None? && c.registerRoom && c.timeout >= 0 && c.idInBounds
      ensures View() == old(View()) <==>
              rc != PROXY_RESULT_OK
              && !(Admitted(c) && old(reqs[r]).callout.None? && c.registerRoom && c.timeout >= 0 && !c.idInBounds)
      ensures rc != PROXY_RESULT_OK && View() != old(View()) ==> rc == PROXY_RESULT_INVALID_MEMORY_ACCESS
      ensures rc == PROXY_RESULT_OK ==>
                && r in reqs && reqs[r].calloutId == old(nextId) && nextId == (old(nextId) + 1) % 0x1_0000_0000
                && reqs[r].callout == Some(Pending(c.timeout, c.headersSize > 0, p))
    {
      if !c.hasReq || !c.yieldable {
        return PROXY_RESULT_BAD_ARGUMENT, None;
      }
      if !c.hostInBounds {
        return PROXY_RESULT_INVALID_MEMORY_ACCESS, None;
      }
      if !c.hostRoom {
        return PROXY_RESULT_INTERNAL_FAILURE, None;
      }
      if !c.hostParses {
        return PROXY_RESULT_BAD_ARGUMENT, None;
      }
      if c.headersSize > 0 {
        if !c.headersInBounds {
          return PROXY_RESULT_INVALID_MEMORY_ACCESS, None;
        }
        if !c.headersRoom {
          return PROXY_RESULT_INTERNAL_FAILURE, None;
        }
      }
      if c.bodySize > 0 {
        if !c.bodyInBounds {
          return PROXY_RESULT_INVALID_MEMORY_ACCESS, None;
        }
        if !c.bodyRoom {
          return PROXY_RESULT_INTERNAL_FAILURE, None;
        }
      }
      var next := nextId;
      rc := CallRegister(r, p, c.timeout, c.headersSize > 0, c.registerRoom);
      if rc != NGX_OK {
        return PROXY_RESULT_INTERNAL_FAILURE, None;
      }
      assert log == old(log) + [Registered(r, p, next)];
      if !c.idInBounds {
        return PROXY_RESULT_INVALID_MEMORY_ACCESS, None;
      }
      return PROXY_RESULT_OK, Some(next);
    }

    method SendLocalResponse(r: ReqId, c: HostCall)
      requires c.LocalResponse?
      modifies this
      ensures View() == SendLocal(old(View()), r, c)
    {
      code := c.resCode % UINT32;
      bodyLen := c.size;
      if !c.headersOk {
        return;
      }
      if c.size > 0 {
        if c.size > |c.memory| {
          return;
        }
        body := Null;
        if !c.room {
          return;
        }
        body := Held(r, c.memory[..c.size]);
      }
    }

    /** The host calls of one guest callback, as the guest makes them. */
    method RunGuest(r: ReqId, p: CtxId, cs: seq<HostCall>)
      requires r in reqs
      modifies this
      ensures View() == PerformAll(old(View()), r, p, cs)
    {
      ghost var s := View();
      for i := 0 to |cs|
        invariant r in reqs
        invariant View() == PerformAll(s, r, p, cs[..i])
      {
        assert cs[..i + 1][..i] == cs[..i];
        match cs[i] {
          case HttpCall(allowed, memOk, timeout, hasMap) =>
            if allowed {
              var _ := CallRegister(r, p, timeout, hasMap, memOk);
            }
          case LocalResponse(_, _, _, _, _) =>
            SendLocalResponse(r, cs[i]);
        }
      }
      assert cs[..|cs|] == cs;
    }

    method HandleRcBeforeProxy(r: ReqId, rc: int) returns (result: int)
      requires r in reqs && code < UINT32
      modifies this
      ensures (View(), result) == HandleRc(old(View()), r, rc)
    {
      var was := Signed(code);
      code := 0;
      if reqs[r].callout.Some? {
        return RC_NEED_HTTP_CALL;
      }
      if rc < 0 {
        return rc;
      }
      if was >= 100 {
        return was;
      }
      return rc;
    }

    /** ngx_http_wasm_fetch_http_ctx. */
    method FetchHttpCtx(r: ReqId, p: CtxId, c: Creation) returns (ok: bool)
      requires r in reqs
      modifies this
      ensures (View(), ok) == Protocol.Fetch(old(View()), r, p, c)
    {
      if p in reqs[r].ctxs {
        return true;
      }
      match c {
        case NoMemory =>
          return false;
        case Create(cs, accepted) =>
          RunGuest(r, p, cs);
          if accepted {
            reqs := reqs[r := reqs[r].(ctxs := reqs[r].ctxs + {p})];
          }
          return accepted;
      }
    }

    method OnHttp(r: ReqId, p: CtxId, c: Creation, run: Run) returns (rc: int)
      requires r in reqs && code < UINT32
      modifies this
      ensures (View(), rc) == Protocol.OnHttp(old(View()), r, p, c, run)
    {
      var ok := FetchHttpCtx(r, p, c);
      if !ok {
        return NGX_DECLINED;
      }
      RunGuest(r, p, run.calls);
      rc := HandleRcBeforeProxy(r, run.rc);
    }

    method OnHttpCallResp(r: ReqId, p: CtxId, answered: bool, c: Creation, run: Run) returns (rc: int)
      requires r in reqs && code < UINT32
      modifies this
      ensures (View(), rc) == OnCallResponse(old(View()), r, p, answered, c, run)
    {
      var ok := FetchHttpCtx(r, p, c);
      if !ok {
        return NGX_DECLINED;
      }
      log := log + [CalledBack(r, p, reqs[r].calloutId, answered)];
      RunGuest(r, p, run.calls);
      rc := HandleRcBeforeProxy(r, if run.rc < 0 then NGX_ERROR else NGX_OK);
    }

    /** The body for Lua: the data pointer is followed for as many bytes as the length says. */
    method FetchBody() returns (b: Handed)
      ensures b == FetchLocalBody(View())
    {
      if bodyLen == 0 {
        return NoBody;
      }
      if body.Null? || body.owner !in reqs || bodyLen < 0 || bodyLen > |body.bytes| {
        return BadRead;
      }
      return Body(body.bytes[..bodyLen]);
    }

    /** ngx_http_wasm_call_get empties the slot, and the driver gives way. */
    method SendHttpCall(r: ReqId, p: CtxId)
      requires r in reqs
      modifies this
      ensures View() == FetchCallout(old(View()), r, p)
    {
      log := log + [Event.Fetched(r, p, reqs[r].calloutId)];
      reqs := reqs[r := reqs[r].(callout := None, phase := Waiting(p))];
    }

    method Finish(r: ReqId, o: Outcome)
      requires r in reqs
      modifies this
      ensures View() == End(old(View()), r, o)
    {
      reqs := reqs[r := reqs[r].(phase := Finished(o))];
    }

    /** What the other requests do while the driver of r is suspended. */
    method Yield(others: seq<Step>, ghost r: ReqId)
      requires Interleave(View(), others, r)
      modifies this
      ensures View() == Apply(old(View()), others, r)
    {
      hide Inv;
      ghost var s := View();
      for i := 0 to |others|
        invariant Interleave(View(), others[i..], r)
        invariant Apply(View(), others[i..], r) == Apply(s, others, r)
      {
        ghost var rest := others[i..];
        assert rest[0] == others[i] && rest[1..] == others[i + 1..];
        InvCodeBound(View());
        var s' := Next(View(), others[i]);
        code, bodyLen, body, nextId, reqs, log, seen :=
          s'.code, s'.bodyLen, s'.body, s'.nextId, s'.reqs, s'.log, s'.seen;
      }
      assert others[|others|..] == [];
    }

    /** on_http_request: returns None if the driver is still suspended when the turns run out. */
    method OnHttpRequest(r: ReqId, p: CtxId, c: Creation, run: Run, turns: seq<Turn>) returns (o: Option<Outcome>)
      requires Inv(View()) && Enabled(View(), Request_(r, p, c, run))
      requires Fits(Next(View(), Request_(r, p, c, run)), r, turns)
      modifies this
      ensures View() == Play(Next(old(View()), Request_(r, p, c, run)), r, turns)
      ensures Inv(View()) && r in reqs
      ensures reqs[r].phase == (if o.Some? then Finished(o.value) else Waiting(p))
    {
      hide Inv;
      InvCodeBound(View());
      ghost var first := Next(View(), Request_(r, p, c, run));
      PlayKeeps(first, r, turns);
      var rc := OnHttp(r, p, c, run);
      var k := 0;
      if rc < 0 {
        Finish(r, Failed);
        return Some(Failed);
      }
      while true
        invariant 0 <= k <= |turns|
        invariant r in reqs && code < UINT32 && rc >= 0
        invariant Fits(Drive(View(), r, p, rc), r, turns[k..])
        invariant Play(Drive(View(), r, p, rc), r, turns[k..]) == Play(first, r, turns)
        decreases |turns| - k
      {
        DriveWaits(View(), r, p, rc);
        if rc >= 100 {
          var b := FetchBody();
          Finish(r, Exited(rc, b));
          return Some(Exited(rc, b));
        }
        if rc == RC_NEED_HTTP_CALL {
          if reqs[r].callout.None? || !reqs[r].callout.value.hasMap {
            Finish(r, Crashed);
            return Some(Crashed);
          }
          SendHttpCall(r, p);
          if k == |turns| {
            return None;
          }
          ghost var rest := turns[k..];
          assert rest[0] == turns[k] && rest[1..] == turns[k + 1..];
          Yield(turns[k].others, r);
          InvCodeBound(View());
          rc := OnHttpCallResp(r, p, turns[k].answered, turns[k].creation, turns[k].response);
          k := k + 1;
          if rc < 0 {
            Finish(r, Failed);
            return Some(Failed);
          }
        }
        if rc == NGX_OK {
          break;
        }
        if rc < 100 && rc != RC_NEED_HTTP_CALL {
          // no branch of the loop changes such a result, so it is never left
          Finish(r, Spinning);
          return Some(Spinning);
        }
      }
      Finish(r, Passed);
      return Some(Passed);
    }
  }

  lemma InvCodeBound(s: State)
    requires Inv(s)
    ensures s.code < UINT32
  {
  }
}
