/**
 What the acceptor of Abi accepts, said of the history of calls itself: a call is allowed or not by
 the calls that were made before it.
 */
module History {
  import opened Common
  import opened Abi

  // ------------------------------------------------------------------------------------
  // What a guest knows, by the calls it has received

  predicate Is(c: Call, pl: Ref, what: What) {
    c.plugin == pl && c.what == what
  }

  predicate IsLoad(c: Call, pl: Ref) {
    c.plugin == pl && c.what.Loaded?
  }

  /** The plugin has been loaded. */
  ghost predicate WasLoaded(calls: seq<Call>, pl: Ref) {
    exists j :: 0 <= j < |calls| && IsLoad(calls[j], pl)
  }

  ghost predicate WasUnloaded(calls: seq<Call>, pl: Ref) {
    exists j :: 0 <= j < |calls| && Is(calls[j], pl, Unloaded)
  }

  /** The j-th call was the successful creation of a context, which was not deleted since. */
  ghost predicate CreatedAt(calls: seq<Call>, j: nat, pl: Ref, id: nat, parent: nat) {
    && j < |calls| && Is(calls[j], pl, ContextCreate(id, parent, true))
    && forall i :: j < i < |calls| ==> !Is(calls[i], pl, OnDelete(id))
  }

  /** It was told to be done since. */
  ghost predicate DoneSince(calls: seq<Call>, j: nat, pl: Ref, id: nat) {
    exists i :: j < i < |calls| && Is(calls[i], pl, OnDone(id))
  }

  /** The context is there, created under `parent`, and has been told to be done or not. */
  ghost predicate IsThere(calls: seq<Call>, pl: Ref, id: nat, parent: nat, done: bool) {
    exists j: nat :: CreatedAt(calls, j, pl, id, parent) && (DoneSince(calls, j, pl, id) <==> done)
  }

  ghost predicate IsAbsent(calls: seq<Call>, pl: Ref, id: nat) {
    forall parent: nat, done :: !IsThere(calls, pl, id, parent, done)
  }

  /** The plugin context is there and has not been told to be done. */
  ghost predicate IsRoot(calls: seq<Call>, pl: Ref, id: nat) {
    IsThere(calls, pl, id, 0, false)
  }

  ghost predicate HasNoChild(calls: seq<Call>, pl: Ref, id: nat) {
    forall child: nat, done :: !IsThere(calls, pl, child, id, done)
  }

  /** The ABI lifecycle: after these calls a guest may receive this one. */
  ghost predicate Allowed(calls: seq<Call>, pl: Ref, what: What) {
    match what
    case Loaded(_) => !WasLoaded(calls, pl)
    case Unloaded => WasLoaded(calls, pl) && !WasUnloaded(calls, pl) && forall id: nat :: IsAbsent(calls, pl, id)
    case ContextCreate(id, parent, _) =>
      && WasLoaded(calls, pl) && !WasUnloaded(calls, pl)
      && id != 0 && IsAbsent(calls, pl, id) && (parent == 0 || IsRoot(calls, pl, parent))
    case OnConfigure(id) => IsRoot(calls, pl, id)
    case OnStream(id, _) => exists parent: nat ::
        parent != 0 && IsThere(calls, pl, id, parent, false) && IsRoot(calls, pl, parent)
    case OnHttpCallResponse(id) => IsRoot(calls, pl, id)
    case OnDone(id) => (exists parent: nat :: IsThere(calls, pl, id, parent, false)) && HasNoChild(calls, pl, id)
    case OnDelete(id) => (exists parent: nat :: IsThere(calls, pl, id, parent, true)) && HasNoChild(calls, pl, id)
  }

  // ------------------------------------------------------------------------------------
  // The acceptor's state says the same

  /** What the acceptor knows of contexts is what the history says. */
  ghost predicate KnowsContexts(t: Tracker, calls: seq<Call>) {
    forall pl: Ref, id: nat, parent: nat, done ::
      ((pl, id) in t.live && t.live[(pl, id)] == LiveCtx(parent, done)) <==> IsThere(calls, pl, id, parent, done)
  }

  ghost predicate KnowsPlugins(t: Tracker, calls: seq<Call>) {
    && (forall pl: Ref :: pl in t.loaded <==> WasLoaded(calls, pl) && !WasUnloaded(calls, pl))
    && (forall pl: Ref :: pl in t.unloaded <==> WasUnloaded(calls, pl))
    && (forall pl: Ref :: WasUnloaded(calls, pl) ==> WasLoaded(calls, pl))
  }

  lemma PluginsSnoc(calls: seq<Call>, c: Call, pl: Ref)
    ensures WasLoaded(calls + [c], pl) <==> WasLoaded(calls, pl) || IsLoad(c, pl)
    ensures WasUnloaded(calls + [c], pl) <==> WasUnloaded(calls, pl) || Is(c, pl, Unloaded)
  {
    var more := calls + [c];
    assert more[|calls|] == c;
    if WasLoaded(calls, pl) {
      var j :| 0 <= j < |calls| && IsLoad(calls[j], pl);
      assert more[j] == calls[j];
    }
    if WasUnloaded(calls, pl) {
      var j :| 0 <= j < |calls| && Is(calls[j], pl, Unloaded);
      assert more[j] == calls[j];
    }
  }

  lemma CreatedSnoc(calls: seq<Call>, c: Call, j: nat, pl: Ref, id: nat, parent: nat)
    ensures CreatedAt(calls + [c], j, pl, id, parent) <==>
            if j == |calls| then Is(c, pl, ContextCreate(id, parent, true))
            else CreatedAt(calls, j, pl, id, parent) && !Is(c, pl, OnDelete(id))
    ensures j < |calls| ==>
              (DoneSince(calls + [c], j, pl, id) <==> DoneSince(calls, j, pl, id) || Is(c, pl, OnDone(id)))
    ensures j == |calls| ==> !DoneSince(calls + [c], j, pl, id)
  {
    var more := calls + [c];
    assert more[|calls|] == c && forall i :: 0 <= i < |calls| ==> more[i] == calls[i];
    if j < |calls| && DoneSince(calls, j, pl, id) {
      var i :| j < i < |calls| && Is(calls[i], pl, OnDone(id));
      assert more[i] == calls[i];
    }
  }

  /** What a call changes for a context. */
  lemma ThereSnoc(calls: seq<Call>, c: Call, pl: Ref, id: nat, parent: nat, done: bool)
    ensures IsThere(calls + [c], pl, id, parent, done) <==>
            || (Is(c, pl, ContextCreate(id, parent, true)) && !done)
            || (!Is(c, pl, OnDelete(id))
                && if Is(c, pl, OnDone(id)) then done && (IsThere(calls, pl, id, parent, false)
                                                          || IsThere(calls, pl, id, parent, true))
                   else IsThere(calls, pl, id, parent, done))
  {
    hide CreatedAt, DoneSince;
    forall j: nat
      ensures CreatedAt(calls + [c], j, pl, id, parent) <==>
              if j == |calls| then Is(c, pl, ContextCreate(id, parent, true))
              else CreatedAt(calls, j, pl, id, parent) && !Is(c, pl, OnDelete(id))
      ensures j < |calls| ==>
                (DoneSince(calls + [c], j, pl, id) <==> DoneSince(calls, j, pl, id) || Is(c, pl, OnDone(id)))
      ensures j == |calls| ==> !DoneSince(calls + [c], j, pl, id)
      ensures CreatedAt(calls, j, pl, id, parent) ==> j < |calls|
    {
      CreatedSnoc(calls, c, j, pl, id, parent);
      CreatedIsThere(calls, j, pl, id, parent);
    }
    var more := calls + [c];
    CreatedIsThere(more, |calls| + 1, pl, id, parent);
    if IsThere(more, pl, id, parent, done) {
      var j: nat :| CreatedAt(more, j, pl, id, parent) && (DoneSince(more, j, pl, id) <==> done);
      CreatedIsThere(more, j, pl, id, parent);
      if j < |calls| {
        assert IsThere(calls, pl, id, parent, DoneSince(calls, j, pl, id));
      }
    }
    if Is(c, pl, ContextCreate(id, parent, true)) && !done {
      assert CreatedAt(more, |calls|, pl, id, parent);
    }
    if !Is(c, pl, OnDelete(id)) {
      forall before: bool | IsThere(calls, pl, id, parent, before)
        ensures IsThere(more, pl, id, parent, before || Is(c, pl, OnDone(id)))
      {
        var j: nat :| CreatedAt(calls, j, pl, id, parent) && (DoneSince(calls, j, pl, id) <==> before);
        assert CreatedAt(more, j, pl, id, parent);
      }
    }
  }

  lemma CreatedIsThere(calls: seq<Call>, j: nat, pl: Ref, id: nat, parent: nat)
    ensures CreatedAt(calls, j, pl, id, parent) ==> j < |calls|
  {
  }

  lemma AcceptsAllowed(t: Tracker, calls: seq<Call>, c: Call)
    requires KnowsContexts(t, calls) && KnowsPlugins(t, calls)
    ensures Accept(t, c.plugin, c.what).Some? <==> Allowed(calls, c.plugin, c.what)
  {
    hide IsThere, WasLoaded, WasUnloaded;
    match c.what
    case Loaded(_) =>
    case Unloaded =>
      AnyContext(t, calls, c.plugin);
    case ContextCreate(id, parent, _) =>
      AbsentContext(t, calls, c.plugin, id);
    case OnConfigure(id) =>
    case OnStream(id, _) =>
    case OnHttpCallResponse(id) =>
    case OnDone(id) =>
      AnyChild(t, calls, c.plugin, id);
      AbsentContext(t, calls, c.plugin, id);
    case OnDelete(id) =>
      AnyChild(t, calls, c.plugin, id);
      AbsentContext(t, calls, c.plugin, id);
  }

  lemma AbsentContext(t: Tracker, calls: seq<Call>, pl: Ref, id: nat)
    requires KnowsContexts(t, calls)
    ensures (pl, id) !in t.live <==> IsAbsent(calls, pl, id)
    ensures (pl, id) in t.live ==> IsThere(calls, pl, id, t.live[(pl, id)].parent, t.live[(pl, id)].done)
  {
    hide IsThere;
    if (pl, id) in t.live {
      var x := t.live[(pl, id)];
      assert x == LiveCtx(x.parent, x.done);
    }
  }

  lemma AnyContext(t: Tracker, calls: seq<Call>, pl: Ref)
    requires KnowsContexts(t, calls)
    ensures HasAny(t, pl) <==> exists id: nat :: !IsAbsent(calls, pl, id)
  {
    hide IsThere, IsAbsent, KnowsContexts;
    if HasAny(t, pl) {
      var k :| k in t.live && k.0 == pl;
      AbsentContext(t, calls, k.0, k.1);
    }
    if id: nat :| !IsAbsent(calls, pl, id) {
      AbsentContext(t, calls, pl, id);
    }
  }

  lemma AnyChild(t: Tracker, calls: seq<Call>, pl: Ref, id: nat)
    requires KnowsContexts(t, calls)
    ensures HasChild(t, pl, id) <==> !HasNoChild(calls, pl, id)
  {
    hide IsThere;
    if HasChild(t, pl, id) {
      var k :| k in t.live && k.0 == pl && t.live[k].parent == id;
      var x := t.live[k];
      assert x == LiveCtx(id, x.done) && k == (pl, k.1);
    }
  }

  lemma AcceptKnows(t: Tracker, calls: seq<Call>, c: Call)
    requires KnowsContexts(t, calls) && KnowsPlugins(t, calls) && Accept(t, c.plugin, c.what).Some?
    ensures var t' := Accept(t, c.plugin, c.what).value;
      KnowsContexts(t', calls + [c]) && KnowsPlugins(t', calls + [c])
  {
    hide IsThere, WasLoaded, WasUnloaded;
    forall pl: Ref
      ensures WasLoaded(calls + [c], pl) <==> WasLoaded(calls, pl) || IsLoad(c, pl)
      ensures WasUnloaded(calls + [c], pl) <==> WasUnloaded(calls, pl) || Is(c, pl, Unloaded)
    {
      PluginsSnoc(calls, c, pl);
    }
    var t' := Accept(t, c.plugin, c.what).value;
    forall pl: Ref, id: nat, parent: nat, done
      ensures ((pl, id) in t'.live && t'.live[(pl, id)] == LiveCtx(parent, done))
         <==> IsThere(calls + [c], pl, id, parent, done)
    {
      ThereSnoc(calls, c, pl, id, parent, done);
    }
  }

  lemma {:induction false} ReplayKnows(calls: seq<Call>)
    requires Replay(calls).Some?
    ensures KnowsContexts(Replay(calls).value, calls) && KnowsPlugins(Replay(calls).value, calls)
  {
    hide KnowsContexts, KnowsPlugins;
    if calls == [] {
      NothingKnown();
    } else {
      var init, c := calls[..|calls| - 1], calls[|calls| - 1];
      ReplayKnows(init);
      AcceptKnows(Replay(init).value, init, c);
      assert init + [c] == calls;
    }
  }

  lemma NothingKnown()
    ensures KnowsContexts(Initial, []) && KnowsPlugins(Initial, [])
  {
  }

  /** A history is accepted exactly when each of its calls is allowed by those before it. */
  lemma {:induction false} AcceptedExactlyWhen(calls: seq<Call>)
    ensures Replay(calls).Some? <==>
            forall k :: 0 <= k < |calls| ==> Allowed(calls[..k], calls[k].plugin, calls[k].what)
  {
    hide Allowed, KnowsContexts, KnowsPlugins, Accept;
    if calls != [] {
      var init, c := calls[..|calls| - 1], calls[|calls| - 1];
      AcceptedExactlyWhen(init);
      assert forall k :: 0 <= k < |init| ==> init[..k] == calls[..k] && init[k] == calls[k];
      if Replay(init).Some? {
        ReplayKnows(init);
        AcceptsAllowed(Replay(init).value, init, c);
      }
    }
  }
}
