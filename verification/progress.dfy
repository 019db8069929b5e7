/**
 No deadlock: whoever holds the names an instance wants, it can always complete a cycle without an error,
 and in the same cycle it gives up what others wait for.
 */
module Progressing {
  import opened Wrappers
  import opened Text
  import opened Sorting
  import opened FragmentCodec
  import opened Resolver
  import opened Routes
  import opened Reconcile
  import opened PerHost
  import opened ProviderEngine
  import opened Stabilise
  import opened Protocol
  import opened Safety
  import opened Solo
  import opened Converge
  import opened Rounds

  ghost predicate NoCrash(ls: seq<Label>) {
    forall l :: l in ls ==> l.Act?
  }

  lemma {:induction false} TimesLawful(cfgs: seq<Config>, demand: seq<seq<Endpoint>>, w: World, i: nat, d: Drive,
    n: nat)
    requires WellNumbered(cfgs, w) && |demand| == |cfgs| && i < |cfgs| && d.eps == demand[i]
    requires IsPlanOf(cfgs[i], d.view, Desired(cfgs, demand, i), d.ch)
    requires FitsAlong(cfgs[i], d, w.store, w.insts[i], n)
    ensures LawfulRun(cfgs, demand, w, Times(i, d, n))
    decreases n
  {
    if n > 0 {
      var l, cfg, s, x := Act(i, d.env, d.eps, d.ch), cfgs[i], w.store, w.insts[i];
      assert Times(i, d, n) == [l] + Times(i, d, n - 1);
      assert Alone(cfg, s, x, d, 0) == (s, x);
      var w1 := Next(cfgs, w, l);
      forall m: nat | m < n - 1
        ensures Fits(cfg, d, Alone(cfg, w1.store, w1.insts[i], d, m).1)
      {
        assert Alone(cfg, s, x, d, m + 1) == Alone(cfg, w1.store, w1.insts[i], d, m);
      }
      TimesLawful(cfgs, demand, w1, i, d, n - 1);
    }
  }

  lemma CreateNotBlocked(cfg: Config, env: Env, s: Store, desired: seq<Endpoint>, ch: Changes, i: nat)
    requires ValidConfig(cfg) && AllWorks(env) && IsPlan(cfg, s, desired, ch) && i < |ch.create|
    requires forall ep :: ep in desired ==> Resolve(cfg.resolver, ep.dns).Some?
    ensures !Troubled(env, s, DecideCreate(cfg, map[], map[], ch.create[i]))
  {
    assert ch.create[i] in ch.create;
  }

  lemma UpdateNotBlocked(cfg: Config, env: Env, s: Store, raw: seq<Endpoint>, ch: Changes, i: nat)
    requires AllWorks(env) && IsPlan(cfg, s, Adjust(cfg, raw), ch) && i < |ch.update|
    ensures !Troubled(env, s, DecideUpdate(cfg, IndexFor(cfg, s, ch), ch.update[i]))
  {
    UpdateResolves(cfg, s, raw, ch, i);
  }

  lemma DeleteNotBlocked(cfg: Config, env: Env, s: Store, ch: Changes, i: nat)
    requires AllWorks(env) && i < |ch.delete|
    ensures !Troubled(env, s, DecideDelete(cfg, IndexFor(cfg, s, ch), ch.delete[i]))
  {
  }

  /** When calls work, a batch reports no error, whoever holds the names it creates. */
  lemma HoldersAreNoError(cfg: Config, env: Env, s: Store, pending: map<string, Reason>, raw: seq<Endpoint>,
    ch: Changes)
    requires ValidConfig(cfg) && !cfg.dryRun && !cfg.adopt && AllWorks(env) && ValidStore(s)
    requires IsPlan(cfg, s, Adjust(cfg, raw), ch) && SkippedFor(cfg, ch) == map[]
    ensures RunAll(cfg, env, Begun(cfg, s, pending, ch), DecisionsFor(cfg, s, ch)).errs == []
  {
    var ds := DecisionsFor(cfg, s, ch);
    BatchPinned(cfg, s, ch);
    DecisionHosts(cfg, IndexFor(cfg, s, ch), ExistingFor(cfg, s, ch), SkippedFor(cfg, ch), ch);
    AdjustElements(cfg, raw);
    SkippedCount(cfg, ch);
    forall k | 0 <= k < |ds|
      ensures !Troubled(env, s, ds[k])
    {
      NotBlockedAt(cfg, env, s, raw, ch, k);
    }
    RunAllSilent(cfg, env, Begun(cfg, s, pending, ch), ds);
  }

  lemma NotBlockedAt(cfg: Config, env: Env, s: Store, raw: seq<Endpoint>, ch: Changes, k: nat)
    requires ValidConfig(cfg) && !cfg.adopt && AllWorks(env) && IsPlan(cfg, s, Adjust(cfg, raw), ch)
    requires SkippedFor(cfg, ch) == map[] && k < |DecisionsFor(cfg, s, ch)|
    ensures !Troubled(env, s, DecisionsFor(cfg, s, ch)[k])
  {
    DecisionAt(cfg, s, ch, k);
    var d, u := |ch.delete|, |ch.update|;
    if k < d {
      DeleteNotBlocked(cfg, env, s, ch, k);
    } else if k < d + u {
      UpdateNotBlocked(cfg, env, s, raw, ch, k - d);
    } else {
      AdjustElements(cfg, raw);
      CreateNotBlocked(cfg, env, s, Adjust(cfg, raw), ch, k - d - u);
    }
  }

  /** Every desired host can be answered in-cluster, if it has to be. */
  ghost predicate Answerable(cfg: Config, desired: seq<Endpoint>) {
    cfg.coredns ==> forall ep :: ep in desired ==> Answer(cfg, ep).Success?
  }

  lemma NothingSkipped(cfg: Config, desired: seq<Endpoint>, eps: seq<Endpoint>)
    requires Answerable(cfg, desired) && forall ep :: ep in eps ==> ep in desired
    ensures SkippedFor(cfg, Changes(eps, [], [])) == map[]
  {
    if cfg.coredns {
      assert forall i :: 0 <= i < |eps| ==> eps[i] in eps;
      NoSkips(cfg, eps);
    }
  }

  lemma AdjustWorks(cfg: Config, d: Drive, s: Store, x: Inst)
    requires AllWorks(d.env) && Answerable(cfg, Adjust(cfg, d.eps))
    ensures Adjusts(cfg, d, s, x).ok
  {
    ExistingAt(Adjust(cfg, d.eps), Reported(cfg, s));
    NothingSkipped(cfg, Adjust(cfg, d.eps), Repair(cfg, d.eps, Reported(cfg, s)).create);
  }

  lemma SkippedByCreates(cfg: Config, a: Changes, b: Changes)
    requires a.create == b.create
    ensures SkippedFor(cfg, a) == SkippedFor(cfg, b)
  {
  }

  /** Alone, an instance whose desire can be answered ends its cycle without an error. */
  lemma GoodCycleAlone(cfg: Config, d: Drive, s: Store, x: Inst) returns (x1: Inst, s1: Store)
    requires ValidConfig(cfg) && !cfg.dryRun && !cfg.adopt && AllWorks(d.env) && ValidStore(s)
    requires x.phase.Idle? && x.lastGood <= x.started && Answerable(cfg, Adjust(cfg, d.eps))
    requires d.view == OwnedIndex(cfg, s) && IsPlan(cfg, s, Adjust(cfg, d.eps), d.ch)
    ensures Reaches(cfg, d, s, x, s1, x1) && x1.phase.Idle? && x1.lastGood == x.started + 1
  {
    AdjustWorks(cfg, d, s, x);
    NothingSkipped(cfg, Adjust(cfg, d.eps), d.ch.create);
    SkippedByCreates(cfg, d.ch, Changes(d.ch.create, [], []));
    x1 := CycleAlone(cfg, d, s, x);
    var a := Adjusts(cfg, d, s, x);
    s1 := Apply(cfg, d.env, s, a.rewrites, a.pending, d.ch).progress.store;
    ApplyWorks(cfg, d, s, a.rewrites, a.pending);
  }

  lemma ApplyWorks(cfg: Config, d: Drive, s: Store, m: Rewrites, pending: map<string, Reason>)
    requires ValidConfig(cfg) && !cfg.dryRun && !cfg.adopt && AllWorks(d.env) && ValidStore(s)
    requires IsPlan(cfg, s, Adjust(cfg, d.eps), d.ch) && SkippedFor(cfg, d.ch) == map[]
    ensures Apply(cfg, d.env, s, m, pending, d.ch).progress.errs == []
  {
    if !IsEmptyPlan(d.ch) {
      LegWorksToo(cfg, d.env, m, d.ch);
      ApplyRuns(cfg, d.env, s, m, pending, d.ch);
      HoldersAreNoError(cfg, d.env, s, pending, d.eps, d.ch);
    }
  }

  lemma LegWorksToo(cfg: Config, env: Env, m: Rewrites, ch: Changes)
    requires AllWorks(env)
    ensures FragmentLeg(cfg, env, Applying, m, ch).ok
  {
  }

  lemma RunReachesLawfully(cfgs: seq<Config>, demand: seq<seq<Endpoint>>, w: World, i: nat, d: Drive, s1: Store,
    x1: Inst)
    returns (ls: seq<Label>)
    requires WellNumbered(cfgs, w) && |demand| == |cfgs| && i < |cfgs| && d.eps == demand[i]
    requires IsPlanOf(cfgs[i], d.view, Desired(cfgs, demand, i), d.ch)
    requires Reaches(cfgs[i], d, w.store, w.insts[i], s1, x1)
    ensures LawfulRun(cfgs, demand, w, ls) && NoCrash(ls) && Run(cfgs, w, ls) == World(s1, w.insts[i := x1])
  {
    var n: nat :| Alone(cfgs[i], w.store, w.insts[i], d, n) == (s1, x1) &&
      FitsAlong(cfgs[i], d, w.store, w.insts[i], n);
    RunTimes(cfgs, w, i, d, n);
    TimesLawful(cfgs, demand, w, i, d, n);
    ls := Times(i, d, n);
  }

  /**
   From every reachable state an idle instance can complete a cycle without an error, whoever holds the
   names it wants; so every round of convergence can be completed.
   */
  lemma CycleCompletes(cfgs: seq<Config>, demand: seq<seq<Endpoint>>, w: World, i: nat, env: Env, ch: Changes)
    returns (ls: seq<Label>)
    requires Good(cfgs, demand, w) && i < |cfgs| && w.insts[i].phase.Idle? && AllWorks(env)
    requires Answerable(cfgs[i], Desired(cfgs, demand, i)) && IsPlan(cfgs[i], w.store, Desired(cfgs, demand, i), ch)
    ensures LawfulRun(cfgs, demand, w, ls) && NoCrash(ls)
    ensures Run(cfgs, w, ls).insts[i].lastGood > w.insts[i].started && Run(cfgs, w, ls).insts[i].phase.Idle?
    ensures forall k :: 0 <= k < |cfgs| && k != i ==> Run(cfgs, w, ls).insts[k] == w.insts[k]
  {
    var d := Drive(env, demand[i], ch, OwnedIndex(cfgs[i], w.store));
    assert GoodInst(cfgs[i], w.store, Desired(cfgs, demand, i), w.insts[i]);
    var x1, s1 := GoodCycleAlone(cfgs[i], d, w.store, w.insts[i]);
    ls := RunReachesLawfully(cfgs, demand, w, i, d, s1, x1);
  }
}
