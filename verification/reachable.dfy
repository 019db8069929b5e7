/**
 Convergence is always within reach: from every reachable state of the instances, half-done cycles
 and all, some lawful schedule routes every wanted name where it is wanted.
 */
module Reachable {
  import opened Wrappers
  import opened Text
  import opened Resolver
  import opened Routes
  import opened Reconcile
  import opened ProviderEngine
  import opened Stabilise
  import opened Protocol
  import opened Safety
  import opened Converge
  import opened Rounds
  import opened Planner
  import opened Progressing

  // Every cycle ends.

  function Stage(p: Phase): nat {
    match p
    case Idle => 0
    case Calling(_, _, _, _) => 1
    case Writing(_, _, _) => 2
    case Claiming(_, _, _, _) => 3
    case Indexing(_, _, _) => 4
    case Planning(_, _) => 5
    case Pruning(_, _) => 6
    case Adjusting(_) => 7
    case Listing(_, _) => 8
  }

  /** Calls left within the stage. */
  function Left(p: Phase): nat {
    match p
    case Listing(rest, _) => |rest|
    case Indexing(_, rest, _) => |rest|
    case Claiming(_, _, rest, _) => |rest|
    case Calling(_, _, todo, _) => |todo|
    case _ => 0
  }

  predicate Nearer(p: Phase, q: Phase) {
    Stage(p) < Stage(q) || (Stage(p) == Stage(q) && Left(p) < Left(q))
  }

  lemma EarlyStepsNearer(cfg: Config, s: Store, x: Inst, env: Env, eps: seq<Endpoint>, ch: Changes)
    requires x.phase.Listing? || x.phase.Adjusting? || x.phase.Pruning? || x.phase.Planning?
    ensures Nearer(NextInst(cfg, s, x, env, eps, ch).1.phase, x.phase)
  {
    match x.phase
    case Listing(rest, seen) =>
    case Adjusting(_) =>
    case Pruning(_, _) =>
    case Planning(_, _) =>
  }

  lemma LateStepsNearer(cfg: Config, s: Store, x: Inst, env: Env, eps: seq<Endpoint>, ch: Changes)
    requires x.phase.Indexing? || x.phase.Claiming? || x.phase.Writing?
    ensures Nearer(NextInst(cfg, s, x, env, eps, ch).1.phase, x.phase)
  {
    match x.phase
    case Indexing(_, _, _) =>
    case Claiming(_, _, _, _) =>
    case Writing(_, _, _) =>
  }

  /** Whatever the network answers and the planner plans, every step of a cycle brings it nearer its end. */
  lemma StepsNearer(cfg: Config, s: Store, x: Inst, env: Env, eps: seq<Endpoint>, ch: Changes)
    requires !x.phase.Idle?
    ensures Nearer(NextInst(cfg, s, x, env, eps, ch).1.phase, x.phase)
  {
    match x.phase
    case Calling(index, existing, todo, known) =>
      if todo != [] {
        CalledParts(cfg, s, x, index, existing, todo, known, env);
      }
    case Indexing(_, _, _) => LateStepsNearer(cfg, s, x, env, eps, ch);
    case Claiming(_, _, _, _) => LateStepsNearer(cfg, s, x, env, eps, ch);
    case Writing(_, _, _) => LateStepsNearer(cfg, s, x, env, eps, ch);
    case _ => EarlyStepsNearer(cfg, s, x, env, eps, ch);
  }

  function Working(): (env: Env)
    ensures AllWorks(env)
  {
    (op, key) => Works
  }

  /** A lawful next step of the instance, all calls working. */
  ghost function Turn(cfgs: seq<Config>, demand: seq<seq<Endpoint>>, w: World, i: nat): Label
    requires WellNumbered(cfgs, w) && i < |cfgs| == |demand|
  {
    match w.insts[i].phase
    case Planning(seen, desired) => Act(i, Working(), demand[i], Planned(cfgs[i], seen, desired))
    case _ => Act(i, Working(), demand[i], Changes([], [], []))
  }

  lemma OwnedKeysLower(cfg: Config, s: Store)
    requires ValidStore(s)
    ensures LowerKeyed(OwnedIndex(cfg, s))
  {
    forall h | h in s.live
      ensures Lower(h) == h
    {
      LowerIdempotent(s.live[h].hostname);
    }
  }

  lemma PlanExists(cfgs: seq<Config>, demand: seq<seq<Endpoint>>, w: World, i: nat)
    requires Good(cfgs, demand, w) && i < |cfgs|
    ensures var seen, desired := OwnedIndex(cfgs[i], w.store), Desired(cfgs, demand, i);
      IsPlan(cfgs[i], w.store, desired, Planned(cfgs[i], seen, desired))
  {
    OwnedKeysLower(cfgs[i], w.store);
    DifferenceIsPlan(cfgs[i], OwnedIndex(cfgs[i], w.store), Desired(cfgs, demand, i));
  }

  lemma TurnIsLawful(cfgs: seq<Config>, demand: seq<seq<Endpoint>>, w: World, i: nat)
    requires Good(cfgs, demand, w) && i < |cfgs|
    ensures Lawful(cfgs, demand, w, Turn(cfgs, demand, w, i))
  {
    assert GoodInst(cfgs[i], w.store, Desired(cfgs, demand, i), w.insts[i]);
    PlanExists(cfgs, demand, w, i);
  }

  lemma {:induction false} LawfulConcat(cfgs: seq<Config>, demand: seq<seq<Endpoint>>, w: World, a: seq<Label>,
    b: seq<Label>)
    requires WellNumbered(cfgs, w) && |demand| == |cfgs|
    requires LawfulRun(cfgs, demand, w, a) && LawfulRun(cfgs, demand, Run(cfgs, w, a), b)
    ensures LawfulRun(cfgs, demand, w, a + b) && Run(cfgs, w, a + b) == Run(cfgs, Run(cfgs, w, a), b)
    decreases |a|
  {
    RunConcat(cfgs, w, a, b);
    if a == [] {
      assert a + b == b;
    } else {
      assert (a + b)[1..] == a[1..] + b;
      LawfulConcat(cfgs, demand, Next(cfgs, w, a[0]), a[1..], b);
    }
  }

  /** An instance left to itself ends the cycle it is in, and the others stay where they are. */
  lemma {:induction false} CycleEnds(cfgs: seq<Config>, demand: seq<seq<Endpoint>>, w: World, i: nat)
    returns (ls: seq<Label>)
    requires Good(cfgs, demand, w) && i < |cfgs|
    ensures LawfulRun(cfgs, demand, w, ls) && NoCrash(ls) && Run(cfgs, w, ls).insts[i].phase.Idle?
    ensures forall k :: 0 <= k < |cfgs| && k != i ==> Run(cfgs, w, ls).insts[k] == w.insts[k]
    decreases Stage(w.insts[i].phase), Left(w.insts[i].phase)
  {
    if w.insts[i].phase.Idle? {
      ls := [];
    } else {
      var l := Turn(cfgs, demand, w, i);
      TurnIsLawful(cfgs, demand, w, i);
      GoodStep(cfgs, demand, w, l);
      StepsNearer(cfgs[i], w.store, w.insts[i], l.env, l.eps, l.ch);
      var rest := CycleEnds(cfgs, demand, Next(cfgs, w, l), i);
      ls := [l] + rest;
    }
  }

  ghost predicate IdleBelow(w: World, n: nat) {
    n <= |w.insts| && forall i :: 0 <= i < n ==> w.insts[i].phase.Idle?
  }

  /** One after another, the instances end the cycles they are in. */
  lemma {:induction false} CyclesEnd(cfgs: seq<Config>, demand: seq<seq<Endpoint>>, w: World, n: nat)
    returns (ls: seq<Label>)
    requires Good(cfgs, demand, w) && n <= |cfgs|
    ensures LawfulRun(cfgs, demand, w, ls) && NoCrash(ls) && IdleBelow(Run(cfgs, w, ls), n)
    decreases n
  {
    if n == 0 {
      ls := [];
    } else {
      var a := CyclesEnd(cfgs, demand, w, n - 1);
      GoodRun(cfgs, demand, w, a);
      var b := CycleEnds(cfgs, demand, Run(cfgs, w, a), n - 1);
      LawfulConcat(cfgs, demand, w, a, b);
      ls := a + b;
    }
  }

  ghost predicate AllAnswerable(cfgs: seq<Config>, demand: seq<seq<Endpoint>>)
    requires |demand| == |cfgs|
  {
    forall i :: 0 <= i < |cfgs| ==> Answerable(cfgs[i], Desired(cfgs, demand, i))
  }

  /** The first n instances have each completed a cycle; the others have not moved. */
  ghost predicate RoundBelow(w: World, w': World, n: nat) {
    && n <= |w.insts| == |w'.insts|
    && (forall i :: 0 <= i < n ==> w'.insts[i].lastGood > w.insts[i].started)
    && (forall i :: n <= i < |w.insts| ==> w'.insts[i] == w.insts[i])
  }

  /** Instance i alone has moved: it is idle again and has completed a cycle. */
  ghost predicate CycledAlone(w: World, w': World, i: nat) {
    && i < |w.insts| == |w'.insts| && w'.insts[i].phase.Idle? && w'.insts[i].lastGood > w.insts[i].started
    && forall k :: 0 <= k < |w.insts| && k != i ==> w'.insts[k] == w.insts[k]
  }

  /** An idle instance can complete a cycle, with the planner's plain difference as its plan. */
  lemma CanCycle(cfgs: seq<Config>, demand: seq<seq<Endpoint>>, w: World, i: nat) returns (ls: seq<Label>)
    requires Good(cfgs, demand, w) && i < |cfgs| && w.insts[i].phase.Idle?
    requires Answerable(cfgs[i], Desired(cfgs, demand, i))
    ensures LawfulRun(cfgs, demand, w, ls) && NoCrash(ls) && CycledAlone(w, Run(cfgs, w, ls), i)
  {
    PlanExists(cfgs, demand, w, i);
    var plan := Planned(cfgs[i], OwnedIndex(cfgs[i], w.store), Desired(cfgs, demand, i));
    ls := CycleCompletes(cfgs, demand, w, i, Working(), plan);
  }

  lemma RoundGrows(w: World, w1: World, w2: World, i: nat)
    requires RoundBelow(w, w1, i) && IdleBelow(w1, |w.insts|) && CycledAlone(w1, w2, i)
    ensures RoundBelow(w, w2, i + 1) && IdleBelow(w2, |w.insts|)
  {
  }

  /** From rest, a whole round can be completed, whoever holds which names. */
  lemma {:induction false} RoundCompletes(cfgs: seq<Config>, demand: seq<seq<Endpoint>>, w: World, n: nat)
    returns (ls: seq<Label>)
    requires Good(cfgs, demand, w) && n <= |cfgs| && IdleBelow(w, |cfgs|) && AllAnswerable(cfgs, demand)
    ensures LawfulRun(cfgs, demand, w, ls) && NoCrash(ls)
    ensures RoundBelow(w, Run(cfgs, w, ls), n) && IdleBelow(Run(cfgs, w, ls), |cfgs|)
    decreases n
  {
    if n == 0 {
      ls := [];
    } else {
      var a := RoundCompletes(cfgs, demand, w, n - 1);
      GoodRun(cfgs, demand, w, a);
      var b := CanCycle(cfgs, demand, Run(cfgs, w, a), n - 1);
      RoundGrows(w, Run(cfgs, w, a), Run(cfgs, Run(cfgs, w, a), b), n - 1);
      LawfulConcat(cfgs, demand, w, a, b);
      ls := a + b;
    }
  }

  lemma CleanAfterRound(cfgs: seq<Config>, demand: seq<seq<Endpoint>>, w: World, w': World)
    requires Good(cfgs, demand, w') && |w.insts| == |cfgs| && RoundDone(w, w')
    ensures AllClean(cfgs, demand, w'.store)
  {
    forall i | 0 <= i < |cfgs|
      ensures Clean(cfgs[i], w'.store, Desired(cfgs, demand, i))
    {
      assert GoodInst(cfgs[i], w'.store, Desired(cfgs, demand, i), w'.insts[i]);
    }
  }

  /**
   From every reachable state, whatever cycles are half done and whoever holds which names, there is a
   lawful schedule without a crash after which every wanted name is routed by its owner on its resolved
   tunnel.
   */
  lemma AlwaysCanConverge(cfgs: seq<Config>, demand: seq<seq<Endpoint>>, w: World) returns (ls: seq<Label>)
    requires Good(cfgs, demand, w) && AllAnswerable(cfgs, demand)
    ensures LawfulRun(cfgs, demand, w, ls) && NoCrash(ls) && Converged(cfgs, demand, Run(cfgs, w, ls).store)
  {
    var a := CyclesEnd(cfgs, demand, w, |cfgs|);
    GoodRun(cfgs, demand, w, a);
    var w1 := Run(cfgs, w, a);
    var b := RoundCompletes(cfgs, demand, w1, |cfgs|);
    GoodRun(cfgs, demand, w1, b);
    var w2 := Run(cfgs, w1, b);
    CleanAfterRound(cfgs, demand, w1, w2);
    var c := RoundCompletes(cfgs, demand, w2, |cfgs|);
    SecondRoundConverges(cfgs, demand, w2, c, []);
    LawfulConcat(cfgs, demand, w, a, b);
    LawfulConcat(cfgs, demand, w, a + b, c);
    ls := a + b + c;
  }
}
