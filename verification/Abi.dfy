/**
 The "Module lifecycle" part of the Proxy-Wasm ABI as an acceptor of guest calls.
 It knows nothing about how the host keeps its records: it only looks at the
 sequence of calls the guest has received and says whether a guest may receive it.
 */
module Abi {
  import opened Common

  type Ref = nat

  /** Which ngx_http_wasm_state_t the host API would read: a plugin's own, or a plugin context's. */
  datatype StateOwner = OfPlugin(plugin: Ref) | OfCtx(plugin: Ref, ctx: Ref)

  /** What a call is for. Loading a VM runs guest code if the module has a start function, unloading
      it never does. */
  datatype What =
    | Loaded(start: bool)
    | Unloaded
    | ContextCreate(id: nat, parent: nat, ok: bool)
    | OnConfigure(id: nat)
    | OnStream(id: nat, sent: Option<Bytes>)
    | OnHttpCallResponse(id: nat)
    | OnDone(id: nat)
    | OnDelete(id: nat)

  /** One call into a VM instance, with what cur_state was while it ran: which record it
      named, whether that record was still allocated, and the body it showed. */
  datatype Call = Call(plugin: Ref, what: What,
                       state: Option<StateOwner>, stateLive: bool, body: Option<Bytes>)

  /** Which of the two calls that let a context go a guest has code for. A call of a function that is
      not exported comes back without having run any. */
  datatype Exports = Exports(onDone: bool, onDelete: bool)

  /** The call runs code of a guest, as far as start, done and delete functions are concerned. */
  predicate Enters(c: Call, exports: Ref -> Exports) {
    match c.what
    case Loaded(start) => start
    case Unloaded => false
    case OnDone(_) => exports(c.plugin).onDone
    case OnDelete(_) => exports(c.plugin).onDelete
    case _ => true
  }

  /** The call goes through ngx_wasm_vm->call, which makes its plugin cur_plugin before anything else. */
  predicate NamesPlugin(c: Call) {
    !c.what.Unloaded? && (c.what.Loaded? ==> c.what.start)
  }

  /** What cur_plugin is once these calls have been made, or while the last of them runs. Unloading a
      VM does not touch it; calls that name no plugin do not move it, and are not recorded. */
  function CurPlugin(calls: seq<Call>): Option<Ref> {
    if calls == [] then None
    else
      var c := calls[|calls| - 1];
      if NamesPlugin(c) then Some(c.plugin) else CurPlugin(calls[..|calls| - 1])
  }

  datatype LiveCtx = LiveCtx(parent: nat, done: bool)

  datatype Tracker = Tracker(loaded: set<Ref>, unloaded: set<Ref>, live: map<(Ref, nat), LiveCtx>)

  predicate RootAlive(t: Tracker, plugin: Ref, id: nat) {
    (plugin, id) in t.live && t.live[(plugin, id)] == LiveCtx(0, false)
  }

  predicate HasChild(t: Tracker, plugin: Ref, id: nat) {
    exists k :: k in t.live && k.0 == plugin && t.live[k].parent == id
  }

  predicate HasAny(t: Tracker, plugin: Ref) {
    exists k :: k in t.live && k.0 == plugin
  }

  /** The state of the guest after one more call, or None if the ABI forbids the call. */
  function Accept(t: Tracker, plugin: Ref, what: What): Option<Tracker> {
    match what
    case Loaded(_) =>
      if plugin in t.loaded || plugin in t.unloaded then None
      else Some(t.(loaded := t.loaded + {plugin}))
    case Unloaded =>
      if plugin !in t.loaded || HasAny(t, plugin) then None
      else Some(t.(loaded := t.loaded - {plugin}, unloaded := t.unloaded + {plugin}))
    case ContextCreate(id, parent, ok) =>
      if plugin !in t.loaded || id == 0 || (plugin, id) in t.live then None
      else if parent != 0 && !RootAlive(t, plugin, parent) then None
      else if ok then Some(t.(live := t.live[(plugin, id) := LiveCtx(parent, false)]))
      else Some(t)
    case OnConfigure(id) =>
      if RootAlive(t, plugin, id) then Some(t) else None
    case OnStream(id, _) =>
      if (plugin, id) in t.live && !t.live[(plugin, id)].done && t.live[(plugin, id)].parent != 0
         && RootAlive(t, plugin, t.live[(plugin, id)].parent)
      then Some(t) else None
    case OnHttpCallResponse(id) =>
      if RootAlive(t, plugin, id) then Some(t) else None
    case OnDone(id) =>
      if (plugin, id) !in t.live || t.live[(plugin, id)].done || HasChild(t, plugin, id) then None
      else Some(t.(live := t.live[(plugin, id) := t.live[(plugin, id)].(done := true)]))
    case OnDelete(id) =>
      if (plugin, id) !in t.live || !t.live[(plugin, id)].done || HasChild(t, plugin, id) then None
      else Some(t.(live := t.live - {(plugin, id)}))
  }

  const Initial := Tracker({}, {}, map[])

  /** Runs the acceptor over a whole history. */
  function Replay(calls: seq<Call>): Option<Tracker> {
    if calls == [] then Some(Initial)
    else
      var before := Replay(calls[..|calls| - 1]);
      var last := calls[|calls| - 1];
      if before.None? then None else Accept(before.value, last.plugin, last.what)
  }

  lemma ReplaySnoc(calls: seq<Call>, c: Call)
    ensures Replay(calls + [c])
         == if Replay(calls).None? then None else Accept(Replay(calls).value, c.plugin, c.what)
  {
    assert (calls + [c])[..|calls + [c]| - 1] == calls;
  }

  // ------------------------------------------------------------------------------------
  // Leaving out what is said to some plugins about their contexts

  /** The calls of the plugins outside x, and what loads and unloads the others. */
  predicate Kept(c: Call, x: set<Ref>) {
    c.plugin !in x || c.what.Loaded? || c.what.Unloaded?
  }

  function SaneCalls(calls: seq<Call>, x: set<Ref>): seq<Call> {
    if calls == [] then []
    else
      var c := calls[|calls| - 1];
      SaneCalls(calls[..|calls| - 1], x) + if Kept(c, x) then [c] else []
  }

  lemma SaneSnoc(calls: seq<Call>, c: Call, x: set<Ref>)
    ensures SaneCalls(calls + [c], x) == SaneCalls(calls, x) + if Kept(c, x) then [c] else []
  {
    assert (calls + [c])[..|calls + [c]| - 1] == calls;
  }

  /** A tracker that has not heard of the contexts of a plugin. */
  function Strip(t: Tracker, pl: Ref): Tracker {
    t.(live := map k | k in t.live && k.0 != pl :: t.live[k])
  }

  lemma StripFacts(t: Tracker, pl: Ref)
    ensures var s := Strip(t, pl);
      && s.loaded == t.loaded && s.unloaded == t.unloaded
      && (forall k :: k in s.live <==> k in t.live && k.0 != pl) && (forall k :: k in s.live ==> s.live[k] == t.live[k])
  {
  }

  lemma SameTracker(s: Tracker, t: Tracker)
    requires forall q :: q in s.loaded <==> q in t.loaded
    requires forall q :: q in s.unloaded <==> q in t.unloaded
    requires forall k :: k in s.live <==> k in t.live
    requires forall k :: k in s.live ==> k in t.live && s.live[k] == t.live[k]
    ensures s == t
  {
    assert s.live == t.live;
  }

  /** Whether a call for pl is allowed depends on what is known of pl only. */
  lemma AllowedAlike(t: Tracker, s: Tracker, pl: Ref, what: What)
    requires pl in s.loaded <==> pl in t.loaded
    requires pl in s.unloaded <==> pl in t.unloaded
    requires forall k: (Ref, nat) :: k.0 == pl ==>
               (k in s.live <==> k in t.live) && (k in s.live ==> s.live[k] == t.live[k])
    ensures Accept(s, pl, what).Some? <==> Accept(t, pl, what).Some?
  {
    assert HasAny(s, pl) <==> HasAny(t, pl);
    assert forall id :: HasChild(s, pl, id) <==> HasChild(t, pl, id);
    assert forall id :: RootAlive(s, pl, id) <==> RootAlive(t, pl, id);
  }

  lemma OwnStripped(t: Tracker, pl: Ref, what: What)
    requires Accept(t, pl, what).Some? && !what.Loaded? && !what.Unloaded?
    ensures Strip(Accept(t, pl, what).value, pl) == Strip(t, pl)
  {
    hide Strip;
    StripFacts(t, pl);
    StripFacts(Accept(t, pl, what).value, pl);
    SameTracker(Strip(Accept(t, pl, what).value, pl), Strip(t, pl));
  }

  lemma AcceptStripped(t: Tracker, pl: Ref, plugin: Ref, what: What)
    requires Accept(t, plugin, what).Some? && (plugin != pl || what.Loaded? || what.Unloaded?)
    ensures Accept(Strip(t, pl), plugin, what) == Some(Strip(Accept(t, plugin, what).value, pl))
  {
    hide Strip, HasAny, HasChild, RootAlive;
    var t2, s := Accept(t, plugin, what).value, Strip(t, pl);
    StripFacts(t, pl);
    StripFacts(t2, pl);
    if plugin != pl {
      AllowedAlike(t, s, plugin, what);
    } else {
      NothingKnown(s, pl);
    }
    SameTracker(Accept(s, plugin, what).value, Strip(t2, pl));
  }

  lemma NothingKnown(s: Tracker, pl: Ref)
    requires forall k :: k in s.live ==> k.0 != pl
    ensures !HasAny(s, pl)
  {
  }

  /** What is accepted stays accepted with the contexts of one more plugin left out. */
  lemma {:induction false} SaneWithout(calls: seq<Call>, x: set<Ref>, pl: Ref)
    requires Replay(SaneCalls(calls, x)).Some?
    ensures Replay(SaneCalls(calls, x + {pl})) == Some(Strip(Replay(SaneCalls(calls, x)).value, pl))
  {
    if calls != [] {
      var init, c := calls[..|calls| - 1], calls[|calls| - 1];
      assert calls == init + [c];
      SaneSnoc(init, c, x);
      SaneSnoc(init, c, x + {pl});
      var sane, more := SaneCalls(init, x), SaneCalls(init, x + {pl});
      if Kept(c, x) {
        ReplaySnoc(sane, c);
        SaneWithout(init, x, pl);
        if Kept(c, x + {pl}) {
          AcceptStripped(Replay(sane).value, pl, c.plugin, c.what);
          ReplaySnoc(more, c);
        } else {
          OwnStripped(Replay(sane).value, pl, c.what);
          assert more + [] == more;
        }
      } else {
        assert sane + [] == sane && more + [] == more;
        SaneWithout(init, x, pl);
      }
    } else {
      assert Strip(Initial, pl).live == map[];
    }
  }

  lemma {:induction false} SaneWithNone(calls: seq<Call>)
    ensures SaneCalls(calls, {}) == calls
  {
    if calls != [] {
      SaneWithNone(calls[..|calls| - 1]);
    }
  }

  /** A history the acceptor rejects cannot be repaired by later calls. */
  lemma {:induction false} ReplayPrefix(calls: seq<Call>, n: nat)
    requires n <= |calls|
    ensures Replay(calls).Some? ==> Replay(calls[..n]).Some?
  {
    if n < |calls| {
      ReplayPrefix(calls[..|calls| - 1], n);
      assert calls[..|calls| - 1][..n] == calls[..n];
    } else {
      assert calls[..n] == calls;
    }
  }

  // ------------------------------------------------------------------------------------
  // The history of one plugin

  function CallsTo(calls: seq<Call>, pl: Ref): seq<Call> {
    if calls == [] then []
    else
      var c := calls[|calls| - 1];
      CallsTo(calls[..|calls| - 1], pl) + if c.plugin == pl then [c] else []
  }

  lemma {:induction false} InCallsTo(calls: seq<Call>, c: Call)
    requires c in calls
    ensures c in CallsTo(calls, c.plugin)
  {
    if c != calls[|calls| - 1] {
      assert calls == calls[..|calls| - 1] + [calls[|calls| - 1]];
      InCallsTo(calls[..|calls| - 1], c);
    }
  }

  lemma {:induction false} CallsToSane(calls: seq<Call>, x: set<Ref>, pl: Ref)
    requires pl !in x
    ensures CallsTo(SaneCalls(calls, x), pl) == CallsTo(calls, pl)
  {
    if calls != [] {
      var init, c := calls[..|calls| - 1], calls[|calls| - 1];
      CallsToSane(init, x, pl);
      if Kept(c, x) {
        assert (SaneCalls(init, x) + [c])[..|SaneCalls(init, x)|] == SaneCalls(init, x);
      } else {
        assert SaneCalls(calls, x) == SaneCalls(init, x);
      }
    }
  }

  /** A tracker that has only heard of one plugin. */
  function Narrow(t: Tracker, pl: Ref): Tracker {
    Tracker(t.loaded * {pl}, t.unloaded * {pl}, map k | k in t.live && k.0 == pl :: t.live[k])
  }

  lemma NarrowFacts(t: Tracker, pl: Ref)
    ensures var s := Narrow(t, pl);
      && (forall q :: q in s.loaded <==> q in t.loaded && q == pl)
      && (forall q :: q in s.unloaded <==> q in t.unloaded && q == pl)
      && (forall k :: k in s.live <==> k in t.live && k.0 == pl) && (forall k :: k in s.live ==> s.live[k] == t.live[k])
  {
  }

  lemma OthersNarrowed(t: Tracker, pl: Ref, plugin: Ref, what: What)
    requires Accept(t, plugin, what).Some? && plugin != pl
    ensures Narrow(Accept(t, plugin, what).value, pl) == Narrow(t, pl)
  {
    hide Narrow;
    var t2 := Accept(t, plugin, what).value;
    NarrowFacts(t, pl);
    NarrowFacts(t2, pl);
    SameTracker(Narrow(t2, pl), Narrow(t, pl));
  }

  lemma AcceptNarrowed(t: Tracker, pl: Ref, what: What)
    requires Accept(t, pl, what).Some?
    ensures Accept(Narrow(t, pl), pl, what) == Some(Narrow(Accept(t, pl, what).value, pl))
  {
    hide Narrow, HasAny, HasChild, RootAlive;
    var t2, s := Accept(t, pl, what).value, Narrow(t, pl);
    NarrowFacts(t, pl);
    NarrowFacts(t2, pl);
    AllowedAlike(t, s, pl, what);
    SameTracker(Accept(s, pl, what).value, Narrow(t2, pl));
  }

  /** What is accepted of all plugins is accepted of each. */
  lemma {:induction false} CallsToAccepted(calls: seq<Call>, pl: Ref)
    requires Replay(calls).Some?
    ensures Replay(CallsTo(calls, pl)) == Some(Narrow(Replay(calls).value, pl))
  {
    if calls == [] {
      assert Narrow(Initial, pl).live == map[] && Narrow(Initial, pl).loaded == {}
        && Narrow(Initial, pl).unloaded == {};
    } else {
      var init, c := calls[..|calls| - 1], calls[|calls| - 1];
      CallsToAccepted(init, pl);
      if c.plugin == pl {
        AcceptNarrowed(Replay(init).value, pl, c.what);
        ReplaySnoc(CallsTo(init, pl), c);
      } else {
        OthersNarrowed(Replay(init).value, pl, c.plugin, c.what);
        assert CallsTo(calls, pl) == CallsTo(init, pl);
      }
    }
  }

  /** The id 0 is refused, and a refusal stays. */
  lemma ZeroIsRefused(calls: seq<Call>, c: Call)
    requires c in calls && c.what.ContextCreate? && c.what.id == 0
    ensures Replay(calls).None?
  {
    var i :| 0 <= i < |calls| && calls[i] == c;
    assert calls[..i + 1] == calls[..i] + [c];
    ReplaySnoc(calls[..i], c);
    ReplayPrefix(calls, i + 1);
  }
}
