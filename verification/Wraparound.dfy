/**
 Why the guarantees about ids stop where a counter wraps: a run of 2^32 configurations that
 all succeed hands out the id 0, which the ABI reserves for "no parent".
 */
module Wraparound {
  import opened Common
  import opened Queues
  import opened Abi
  import opened Lifecycle
  import opened Invariant
  import opened Preservation
  import opened Obedience
  import opened Entries
  import opened Runs

  const Accepting := ConfigureAnswers(true, NGX_OK, true, true, None, 1)

  /** One plugin, and n plugin contexts configured one after the other. */
  function ManyContexts(n: nat): (ss: seq<Step>)
    ensures ss != []
  {
    if n == 0 then [LoadPlugin(LoadAnswers(true, true, NGX_OK, true))]
    else ManyContexts(n - 1) + [ConfigurePlugin(0, Accepting)]
  }

  /** Plugin 0 is held by Lua and has no context to recycle. */
  ghost predicate AllInUse(w: World) {
    0 in w.pluginHandles && 0 in w.plugins && w.plugins[0].free == []
  }

  lemma CreatedWithoutSpare(w: World, pl: Ref)
    requires Spare(w, pl) && |w.plugins[pl].free| == 1
    ensures var w' := Created(w, pl, Accepting);
      && pl in w'.plugins && w'.plugins[pl].free == [] && w'.plugins[pl].curCtxId == w.plugins[pl].curCtxId
      && w'.pluginHandles == w.pluginHandles && w'.wrapped == w.wrapped
      && |w'.calls| == |w.calls| + 2 && w'.calls[..|w.calls|] == w.calls
      && w'.calls[|w.calls|].plugin == pl
      && w'.calls[|w.calls|].what == ContextCreate(w.pctxs[Last(w.plugins[pl].free)].id, 0, true)
  {
  }

  lemma OneMoreContext(w: World)
    requires Inv(w) && AllInUse(w)
    ensures var w' := Configuration(w, 0, Accepting);
      && AllInUse(w') && w'.plugins[0].curCtxId == NextId(w.plugins[0].curCtxId)
      && |w'.calls| == |w.calls| + 2 && w'.calls[..|w.calls|] == w.calls
      && w'.calls[|w.calls|].plugin == 0
      && w'.calls[|w.calls|].what == ContextCreate(NextId(w.plugins[0].curCtxId), 0, true)
  {
    hide Inv, Created;
    HandleConfigures(w, 0);
    CreatedWithoutSpare(TakeCtx(w, 0), 0);
  }

  lemma OnePlugin(w: World)
    requires w == Empty
    ensures AllInUse(AddPlugin(w, true)) && AddPlugin(w, true).plugins[0].curCtxId == 0
  {
  }

  lemma RunSnoc(ss: seq<Step>, s: Step)
    requires Legal(ss) && Enabled(Run(ss), s)
    ensures Legal(ss + [s]) && Run(ss + [s]) == Next(Run(ss), s)
  {
    hide Inv;
    assert (ss + [s])[..|ss + [s]| - 1] == ss;
  }

  lemma NextIdIsModulo(n: nat)
    ensures NextId(n % UINT32) == (n + 1) % UINT32
  {
  }

  lemma {:induction false} ManyContextsRun(n: nat)
    ensures Legal(ManyContexts(n))
    ensures var w := Run(ManyContexts(n)); AllInUse(w) && w.plugins[0].curCtxId == n % UINT32
  {
    hide Inv, AllInUse, AddPlugin, Configuration, NextId;
    if n == 0 {
      var none: seq<Step> := [];
      OnePlugin(Run(none));
      RunSnoc(none, LoadPlugin(LoadAnswers(true, true, NGX_OK, true)));
      assert ManyContexts(n) == none + [LoadPlugin(LoadAnswers(true, true, NGX_OK, true))];
    } else {
      ManyContextsRun(n - 1);
      OneMoreContext(Run(ManyContexts(n - 1)));
      AllInUseConfigures(Run(ManyContexts(n - 1)));
      RunSnoc(ManyContexts(n - 1), ConfigurePlugin(0, Accepting));
      NextIdIsModulo(n - 1);
    }
  }

  lemma AllInUseConfigures(w: World)
    requires AllInUse(w)
    ensures Enabled(w, ConfigurePlugin(0, Accepting))
  {
  }

  /** After a multiple of 2^32 configurations the last one announces a context with the id 0,
      and from then on the history of the guest is not one the ABI allows. */
  lemma IdZeroIsHandedOut(n: nat)
    requires n > 0 && n % UINT32 == 0
    ensures Legal(ManyContexts(n))
    ensures var calls := Run(ManyContexts(n)).calls;
      (exists c :: c in calls && c.plugin == 0 && c.what == ContextCreate(0, 0, true)) && Replay(calls).None?
  {
    hide Inv, AllInUse, Configuration, NextId, Replay;
    var before := ManyContexts(n - 1);
    ManyContextsRun(n - 1);
    var w := Run(before);
    AllInUseConfigures(w);
    RunSnoc(before, ConfigurePlugin(0, Accepting));
    OneMoreContext(w);
    NextIdIsModulo(n - 1);
    var w' := Configuration(w, 0, Accepting);
    var c := w'.calls[|w.calls|];
    assert c in w'.calls;
    ZeroIsRefused(w'.calls, c);
  }
}
