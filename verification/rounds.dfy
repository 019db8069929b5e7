/**
 The second round, and convergence: names nobody else holds any more are taken and kept.
 */
module Rounds {
  import opened Wrappers
  import opened Text
  import opened Resolver
  import opened Routes
  import opened Reconcile
  import opened Endpoints
  import opened PerHost
  import opened ProviderEngine
  import opened Stabilise
  import opened Protocol
  import opened Safety
  import opened Converge

  /** No instance owns a route it does not want. */
  ghost predicate AllClean(cfgs: seq<Config>, demand: seq<seq<Endpoint>>, s: Store)
    requires |demand| == |cfgs|
  {
    forall i :: 0 <= i < |cfgs| ==> Clean(cfgs[i], s, Desired(cfgs, demand, i))
  }

  /** What each instance's AdjustEndpoints keeps is placed. */
  ghost predicate EachPlaced(cfgs: seq<Config>, demand: seq<seq<Endpoint>>, s: Store)
    requires |demand| == |cfgs|
  {
    forall i :: 0 <= i < |cfgs| ==> AllPlaced(cfgs[i], s, Desired(cfgs, demand, i))
  }

  /** Every endpoint that is served is routed by the instance it was given to, on the tunnel its name resolves to. */
  ghost predicate GivenPlaced(cfg: Config, s: Store, eps: seq<Endpoint>) {
    forall i :: 0 <= i < |eps| && Served(cfg, eps[i]) ==>
      && OwnedAt(cfg, s, Lower(eps[i].dns))
      && Resolve(cfg.resolver, eps[i].dns) == Some(s.live[Lower(eps[i].dns)].tunnel)
  }

  /** The instance owns no route that none of its endpoints asks for. */
  ghost predicate GivenOnly(cfg: Config, s: Store, eps: seq<Endpoint>) {
    forall h :: OwnedAt(cfg, s, h) ==> IsAsked(cfg, eps, h)
  }

  /**
   Every name is where it is wanted, told by the endpoints each instance is given: those that are served are
   routed by it on the tunnels they resolve to, and it owns no others.
   */
  ghost predicate Converged(cfgs: seq<Config>, demand: seq<seq<Endpoint>>, s: Store)
    requires |demand| == |cfgs|
  {
    forall i :: 0 <= i < |cfgs| ==> GivenPlaced(cfgs[i], s, demand[i]) && GivenOnly(cfgs[i], s, demand[i])
  }

  lemma PlacedByGiven(cfg: Config, s: Store, eps: seq<Endpoint>)
    ensures AllPlaced(cfg, s, Adjust(cfg, eps)) <==> GivenPlaced(cfg, s, eps)
  {
    var out := Adjust(cfg, eps);
    if AllPlaced(cfg, s, out) {
      forall i: nat | i < |eps| && Served(cfg, eps[i])
        ensures OwnedAt(cfg, s, Lower(eps[i].dns))
        ensures Resolve(cfg.resolver, eps[i].dns) == Some(s.live[Lower(eps[i].dns)].tunnel)
      {
        var j := ServedIsKept(cfg, eps, i);
        assert Placed(cfg, s, out[j]);
      }
    }
    if GivenPlaced(cfg, s, eps) {
      forall ep | ep in out
        ensures Placed(cfg, s, ep)
      {
        var j: nat :| j < |out| && out[j] == ep;
        var i := KeptIsGiven(cfg, eps, j);
      }
    }
  }

  lemma CleanByGiven(cfg: Config, s: Store, eps: seq<Endpoint>)
    ensures Clean(cfg, s, Adjust(cfg, eps)) <==> GivenOnly(cfg, s, eps)
  {
    forall h
      ensures HasKey(Adjust(cfg, eps), h) <==> IsAsked(cfg, eps, h)
    {
      KeyedIsAsked(cfg, eps, h);
    }
  }

  /** The same, told by what AdjustEndpoints keeps. */
  lemma ConvergedIs(cfgs: seq<Config>, demand: seq<seq<Endpoint>>, s: Store)
    requires |demand| == |cfgs|
    ensures Converged(cfgs, demand, s) <==> EachPlaced(cfgs, demand, s) && AllClean(cfgs, demand, s)
  {
    forall i | 0 <= i < |cfgs|
      ensures AllPlaced(cfgs[i], s, Desired(cfgs, demand, i)) <==> GivenPlaced(cfgs[i], s, demand[i])
      ensures Clean(cfgs[i], s, Desired(cfgs, demand, i)) <==> GivenOnly(cfgs[i], s, demand[i])
    {
      PlacedByGiven(cfgs[i], s, demand[i]);
      CleanByGiven(cfgs[i], s, demand[i]);
    }
  }

  /** A cycle begun after the mark will have placed everything when it ends without an error. */
  ghost predicate LateInst(cfg: Config, s: Store, desired: seq<Endpoint>, x: Inst, mark: nat) {
    && (x.phase.Calling? && x.faultless && x.started > mark ==> CoversDesired(cfg, s, desired, x.phase.todo))
    && (x.lastGood > mark ==> AllPlaced(cfg, s, desired))
  }

  ghost predicate Late(cfgs: seq<Config>, demand: seq<seq<Endpoint>>, w: World, marks: seq<nat>) {
    && Good(cfgs, demand, w) && AllClean(cfgs, demand, w.store) && |marks| == |cfgs|
    && forall i :: 0 <= i < |cfgs| ==> LateInst(cfgs[i], w.store, Desired(cfgs, demand, i), w.insts[i], marks[i])
  }

  lemma CleanMeansNobodyElse(cfgs: seq<Config>, demand: seq<seq<Endpoint>>, s: Store, i: nat)
    requires Cooperative(cfgs, demand) && AllHeld(cfgs, s) && AllClean(cfgs, demand, s) && i < |cfgs|
    ensures NobodyElse(cfgs[i], s, Desired(cfgs, demand, i))
  {
    forall h | HasKey(Desired(cfgs, demand, i), h) && h in s.live
      ensures OwnedAt(cfgs[i], s, h)
    {
      var k :| 0 <= k < |cfgs| && Wields(cfgs[k], s, h);
      assert Clean(cfgs[k], s, Desired(cfgs, demand, k));
    }
  }

  lemma CleanStep(cfgs: seq<Config>, demand: seq<seq<Endpoint>>, w: World, l: Label)
    requires Good(cfgs, demand, w) && AllClean(cfgs, demand, w.store)
    ensures AllClean(cfgs, demand, Next(cfgs, w, l).store)
  {
    StrictNeverClash(cfgs);
    NextStore(cfgs, w, l);
    forall i | 0 <= i < |cfgs|
      ensures Clean(cfgs[i], Next(cfgs, w, l).store, Desired(cfgs, demand, i))
    {
      if i != l.i {
        forall h {
          OthersLeaveOwned(cfgs, w, l, i, h);
        }
      } else if CallOf(cfgs, w, l).Some? {
        var c := CallOf(cfgs, w, l).value;
        GoodCall(cfgs, demand, w, l);
        CleanAfterOwnCall(cfgs, i, w.store, w.insts[i].phase.index, Desired(cfgs, demand, i), c,
          l.env(CallOp(KindOf(c)), c.host));
      }
    }
  }

  /** Nobody creates a name another instance wants. */
  lemma OthersLeaveFree(cfgs: seq<Config>, demand: seq<seq<Endpoint>>, w: World, l: Label, k: nat, h: string)
    requires Good(cfgs, demand, w) && k < |cfgs| && k != l.i
    requires HasKey(Desired(cfgs, demand, k), h) && h !in w.store.live
    ensures h !in Next(cfgs, w, l).store.live
  {
    NextStore(cfgs, w, l);
    if CallOf(cfgs, w, l).Some? {
      var c := CallOf(cfgs, w, l).value;
      GoodCall(cfgs, demand, w, l);
      PerformLocal(w.store, c, l.env(CallOp(KindOf(c)), c.host));
      PerformAtHost(w.store, c, l.env(CallOp(KindOf(c)), c.host));
    }
  }

  lemma PlacingUnderOthers(cfgs: seq<Config>, demand: seq<seq<Endpoint>>, w: World, l: Label, k: nat, ep: Endpoint,
    todo: seq<Decision>)
    requires Good(cfgs, demand, w) && k < |cfgs| && k != l.i && HasKey(Desired(cfgs, demand, k), Key(ep))
    ensures Placed(cfgs[k], w.store, ep) ==> Placed(cfgs[k], Next(cfgs, w, l).store, ep)
    ensures Placing(cfgs[k], w.store, ep, todo) ==> Placing(cfgs[k], Next(cfgs, w, l).store, ep, todo)
  {
    var s, s', h := w.store, Next(cfgs, w, l).store, Key(ep);
    StrictNeverClash(cfgs);
    OthersLeaveOwned(cfgs, w, l, k, h);
    if h !in s.live {
      OthersLeaveFree(cfgs, demand, w, l, k, h);
    }
    if Placing(cfgs[k], s, ep, todo) && !Placed(cfgs[k], s, ep) {
      var d :| d in todo && WouldPlace(cfgs[k], s, h, d);
      assert WouldPlace(cfgs[k], s', h, d);
    }
  }

  lemma LateUnderOthers(cfgs: seq<Config>, demand: seq<seq<Endpoint>>, w: World, l: Label, k: nat, mark: nat)
    requires Good(cfgs, demand, w) && k < |cfgs| && k != l.i
    requires LateInst(cfgs[k], w.store, Desired(cfgs, demand, k), w.insts[k], mark)
    ensures LateInst(cfgs[k], Next(cfgs, w, l).store, Desired(cfgs, demand, k), w.insts[k], mark)
  {
    var todo := if w.insts[k].phase.Calling? then w.insts[k].phase.todo else [];
    KeysAre(Desired(cfgs, demand, k));
    forall ep | ep in Desired(cfgs, demand, k)
      ensures Placed(cfgs[k], w.store, ep) ==> Placed(cfgs[k], Next(cfgs, w, l).store, ep)
      ensures Placing(cfgs[k], w.store, ep, todo) ==> Placing(cfgs[k], Next(cfgs, w, l).store, ep, todo)
    {
      PlacingUnderOthers(cfgs, demand, w, l, k, ep, todo);
    }
  }

  lemma NothingLeftIsPlaced(cfg: Config, s: Store, desired: seq<Endpoint>)
    requires CoversDesired(cfg, s, desired, [])
    ensures AllPlaced(cfg, s, desired)
  {
    forall ep | ep in desired
      ensures Placed(cfg, s, ep)
    {
      assert Placing(cfg, s, ep, []);
    }
  }

  lemma LateQuietStep(cfgs: seq<Config>, demand: seq<seq<Endpoint>>, w: World, l: Label, mark: nat)
    requires Good(cfgs, demand, w) && AllClean(cfgs, demand, w.store)
    requires l.i < |cfgs| && l.Act? && Lawful(cfgs, demand, w, l)
    requires !(w.insts[l.i].phase.Calling? && w.insts[l.i].phase.todo != [])
    requires LateInst(cfgs[l.i], w.store, Desired(cfgs, demand, l.i), w.insts[l.i], mark)
    ensures var (s', x') := NextInst(cfgs[l.i], w.store, w.insts[l.i], l.env, l.eps, l.ch);
      LateInst(cfgs[l.i], s', Desired(cfgs, demand, l.i), x', mark)
  {
    var cfg, s, x, desired := cfgs[l.i], w.store, w.insts[l.i], Desired(cfgs, demand, l.i);
    assert GoodInst(cfg, s, desired, x);
    HeldIsWielded(cfgs, s, l.i);
    CleanMeansNobodyElse(cfgs, demand, s, l.i);
    QuietStep(cfg, s, x, l.env, l.eps, l.ch);
    match x.phase
    case Planning(_, _) =>
      if IsEmptyPlan(l.ch) {
        EmptyPlanIsPlaced(cfg, s, demand[l.i], l.ch);
      }
    case Writing(ch, index, existing) =>
      WriteStep(cfg, s, x, ch, index, existing, l.env);
      if SkippedFor(cfg, ch) == map[] {
        PlanCoversDesired(cfg, s, demand[l.i], ch);
      }
    case Calling(_, _, _, _) =>
      if x.faultless && x.started > mark {
        NothingLeftIsPlaced(cfg, s, desired);
      }
    case _ =>
  }

  lemma CoversAfterCall(cfgs: seq<Config>, demand: seq<seq<Endpoint>>, w: World, l: Label)
    requires Good(cfgs, demand, w) && l.i < |cfgs| && l.Act?
    requires w.insts[l.i].phase.Calling? && w.insts[l.i].phase.todo != []
    ensures var x, desired := w.insts[l.i], Desired(cfgs, demand, l.i);
      var s' := AfterDecision(w.store, x.phase.todo[0], l.env);
      && (CoversDesired(cfgs[l.i], w.store, desired, x.phase.todo) && Smooth(w.store, x.phase.todo[0], l.env) ==>
            CoversDesired(cfgs[l.i], s', desired, x.phase.todo[1..]))
      && (AllPlaced(cfgs[l.i], w.store, desired) ==> AllPlaced(cfgs[l.i], s', desired))
  {
    var x, desired, s := w.insts[l.i], Desired(cfgs, demand, l.i), w.store;
    var todo := x.phase.todo;
    assert GoodInst(cfgs[l.i], s, desired, x);
    KeysAre(desired);
    if todo[0].Go? {
      GoodCall(cfgs, demand, w, l);
      forall ep | ep in desired
        ensures Placing(cfgs[l.i], s, ep, todo) && Smooth(s, todo[0], l.env) ==>
          Placing(cfgs[l.i], AfterDecision(s, todo[0], l.env), ep, todo[1..])
        ensures Placed(cfgs[l.i], s, ep) ==> Placed(cfgs[l.i], AfterDecision(s, todo[0], l.env), ep)
      {
        CoverAfterCall(cfgs, l.i, s, x.phase.index, desired, todo, l.env, ep);
      }
    } else {
      forall ep | ep in desired && Placing(cfgs[l.i], s, ep, todo)
        ensures Placing(cfgs[l.i], s, ep, todo[1..])
      {
        if !Placed(cfgs[l.i], s, ep) {
          var d :| d in todo && WouldPlace(cfgs[l.i], s, Key(ep), d);
          assert d in todo[1..];
        }
      }
    }
  }

  lemma CoverAfterCall(cfgs: seq<Config>, i: nat, s: Store, index: Index, desired: seq<Endpoint>, todo: seq<Decision>,
    env: Env, ep: Endpoint)
    requires i < |cfgs| && todo != [] && todo[0].Go? && OwnCall(cfgs, i, s, index, desired, todo[0].call)
    requires Orderly(desired, todo) && HasKey(desired, Key(ep))
    ensures Placing(cfgs[i], s, ep, todo) && Smooth(s, todo[0], env) ==>
      Placing(cfgs[i], AfterDecision(s, todo[0], env), ep, todo[1..])
    ensures Placed(cfgs[i], s, ep) ==> Placed(cfgs[i], AfterDecision(s, todo[0], env), ep)
  {
    var c := todo[0].call;
    if Placing(cfgs[i], s, ep, todo) && Smooth(s, todo[0], env) {
      PlacingAfterCall(cfgs, i, s, index, desired, todo, env, ep);
    }
    if Placed(cfgs[i], s, ep) {
      PlacedAfterOwnCall(cfgs, i, s, index, desired, c, env(CallOp(KindOf(c)), c.host), ep);
    }
  }

  lemma LateCallStep(cfgs: seq<Config>, demand: seq<seq<Endpoint>>, w: World, l: Label, mark: nat)
    requires Good(cfgs, demand, w) && l.i < |cfgs| && l.Act?
    requires w.insts[l.i].phase.Calling? && w.insts[l.i].phase.todo != []
    requires LateInst(cfgs[l.i], w.store, Desired(cfgs, demand, l.i), w.insts[l.i], mark)
    ensures var (s', x') := NextInst(cfgs[l.i], w.store, w.insts[l.i], l.env, l.eps, l.ch);
      LateInst(cfgs[l.i], s', Desired(cfgs, demand, l.i), x', mark)
  {
    var x := w.insts[l.i];
    CalledHistory(cfgs[l.i], w.store, x, x.phase.index, x.phase.existing, x.phase.todo, x.phase.known, l.env);
    CoversAfterCall(cfgs, demand, w, l);
  }

  lemma LateStep(cfgs: seq<Config>, demand: seq<seq<Endpoint>>, w: World, l: Label, marks: seq<nat>)
    requires Late(cfgs, demand, w, marks) && Lawful(cfgs, demand, w, l)
    ensures Late(cfgs, demand, Next(cfgs, w, l), marks)
  {
    GoodStep(cfgs, demand, w, l);
    CleanStep(cfgs, demand, w, l);
    if l.i < |cfgs| {
      var w' := Next(cfgs, w, l);
      forall k | 0 <= k < |cfgs|
        ensures LateInst(cfgs[k], w'.store, Desired(cfgs, demand, k), w'.insts[k], marks[k])
      {
        assert LateInst(cfgs[k], w.store, Desired(cfgs, demand, k), w.insts[k], marks[k]);
        if k != l.i {
          LateUnderOthers(cfgs, demand, w, l, k, marks[k]);
        } else if l.Act? {
          if w.insts[k].phase.Calling? && w.insts[k].phase.todo != [] {
            LateCallStep(cfgs, demand, w, l, marks[k]);
          } else {
            LateQuietStep(cfgs, demand, w, l, marks[k]);
          }
        }
      }
    }
  }

  lemma {:induction false} LateRun(cfgs: seq<Config>, demand: seq<seq<Endpoint>>, w: World, ls: seq<Label>,
    marks: seq<nat>)
    requires Late(cfgs, demand, w, marks) && LawfulRun(cfgs, demand, w, ls)
    ensures Late(cfgs, demand, Run(cfgs, w, ls), marks)
    decreases |ls|
  {
    if ls != [] {
      LateStep(cfgs, demand, w, ls[0], marks);
      LateRun(cfgs, demand, Next(cfgs, w, ls[0]), ls[1..], marks);
    }
  }

  /** Every instance has completed, without an error, a cycle it began in this run. */
  ghost predicate RoundDone(w: World, w': World) {
    |w'.insts| == |w.insts| && forall i :: 0 <= i < |w.insts| ==> w'.insts[i].lastGood > w.insts[i].started
  }

  function Started(w: World): (ms: seq<nat>)
    ensures |ms| == |w.insts| && forall i :: 0 <= i < |ms| ==> ms[i] == w.insts[i].started
  {
    seq(|w.insts|, i requires 0 <= i < |w.insts| => w.insts[i].started)
  }

  lemma CleanIsLate(cfgs: seq<Config>, demand: seq<seq<Endpoint>>, w: World)
    requires Good(cfgs, demand, w) && AllClean(cfgs, demand, w.store)
    ensures Late(cfgs, demand, w, Started(w))
  {
    forall i | 0 <= i < |cfgs|
      ensures LateInst(cfgs[i], w.store, Desired(cfgs, demand, i), w.insts[i], Started(w)[i])
    {
      assert GoodInst(cfgs[i], w.store, Desired(cfgs, demand, i), w.insts[i]);
    }
  }

  /**
   First round: whoever held what, through any failures and crashes, once every instance has completed
   a cycle no instance owns a name it does not want. Every tunnel's routes fit one page.
   */
  lemma FirstRoundCleans(cfgs: seq<Config>, demand: seq<seq<Endpoint>>, w: World, ls: seq<Label>)
    requires Cooperative(cfgs, demand) && WellNumbered(cfgs, w) && Fresh(w) && AllHeld(cfgs, w.store)
    requires LawfulRun(cfgs, demand, w, ls) && RoundDone(w, Run(cfgs, w, ls))
    ensures Good(cfgs, demand, Run(cfgs, w, ls)) && AllClean(cfgs, demand, Run(cfgs, w, ls).store)
  {
    FreshIsGood(cfgs, demand, w);
    GoodRun(cfgs, demand, w, ls);
    var w' := Run(cfgs, w, ls);
    forall i | 0 <= i < |cfgs|
      ensures Clean(cfgs[i], w'.store, Desired(cfgs, demand, i))
    {
      assert GoodInst(cfgs[i], w'.store, Desired(cfgs, demand, i), w'.insts[i]);
      assert w'.insts[i].lastGood > w.insts[i].started;
    }
  }

  /**
   Second round, and ever after: once every instance has completed a further cycle, every wanted name is
   routed by its owner on its resolved tunnel, and no later step or crash of any instance undoes it.
   */
  lemma SecondRoundConverges(cfgs: seq<Config>, demand: seq<seq<Endpoint>>, w: World, ls: seq<Label>, more: seq<Label>)
    requires Good(cfgs, demand, w) && AllClean(cfgs, demand, w.store)
    requires LawfulRun(cfgs, demand, w, ls) && RoundDone(w, Run(cfgs, w, ls))
    requires LawfulRun(cfgs, demand, Run(cfgs, w, ls), more)
    ensures Converged(cfgs, demand, Run(cfgs, w, ls).store)
    ensures Converged(cfgs, demand, Run(cfgs, Run(cfgs, w, ls), more).store)
  {
    var marks := Started(w);
    CleanIsLate(cfgs, demand, w);
    LateRun(cfgs, demand, w, ls, marks);
    var w1 := Run(cfgs, w, ls);
    LateAndDone(cfgs, demand, w1, marks);
    ConvergedStays(cfgs, demand, w1, more);
  }

  lemma LateAndDone(cfgs: seq<Config>, demand: seq<seq<Endpoint>>, w: World, marks: seq<nat>)
    requires Late(cfgs, demand, w, marks) && forall i :: 0 <= i < |cfgs| ==> w.insts[i].lastGood > marks[i]
    ensures Converged(cfgs, demand, w.store)
  {
    forall i | 0 <= i < |cfgs|
      ensures AllPlaced(cfgs[i], w.store, Desired(cfgs, demand, i))
    {
      assert LateInst(cfgs[i], w.store, Desired(cfgs, demand, i), w.insts[i], marks[i]);
    }
    ConvergedIs(cfgs, demand, w.store);
  }

  lemma PlacedStep(cfgs: seq<Config>, demand: seq<seq<Endpoint>>, w: World, l: Label)
    requires Good(cfgs, demand, w) && EachPlaced(cfgs, demand, w.store)
    ensures EachPlaced(cfgs, demand, Next(cfgs, w, l).store)
  {
    NextStore(cfgs, w, l);
    forall i | 0 <= i < |cfgs|
      ensures AllPlaced(cfgs[i], Next(cfgs, w, l).store, Desired(cfgs, demand, i))
    {
      KeysAre(Desired(cfgs, demand, i));
      if i != l.i {
        forall ep | ep in Desired(cfgs, demand, i)
          ensures Placed(cfgs[i], Next(cfgs, w, l).store, ep)
        {
          assert Placed(cfgs[i], w.store, ep);
          PlacingUnderOthers(cfgs, demand, w, l, i, ep, []);
        }
      } else if CallOf(cfgs, w, l).Some? {
        CoversAfterCall(cfgs, demand, w, l);
      }
    }
  }

  lemma ConvergedStep(cfgs: seq<Config>, demand: seq<seq<Endpoint>>, w: World, l: Label)
    requires Good(cfgs, demand, w) && Converged(cfgs, demand, w.store)
    ensures Converged(cfgs, demand, Next(cfgs, w, l).store)
  {
    ConvergedIs(cfgs, demand, w.store);
    PlacedStep(cfgs, demand, w, l);
    CleanStep(cfgs, demand, w, l);
    ConvergedIs(cfgs, demand, Next(cfgs, w, l).store);
  }

  /** Nothing undoes convergence. */
  lemma {:induction false} ConvergedStays(cfgs: seq<Config>, demand: seq<seq<Endpoint>>, w: World, ls: seq<Label>)
    requires Good(cfgs, demand, w) && Converged(cfgs, demand, w.store) && LawfulRun(cfgs, demand, w, ls)
    ensures Converged(cfgs, demand, Run(cfgs, w, ls).store)
    decreases |ls|
  {
    if ls != [] {
      ConvergedStep(cfgs, demand, w, ls[0]);
      GoodStep(cfgs, demand, w, ls[0]);
      ConvergedStays(cfgs, demand, Next(cfgs, w, ls[0]), ls[1..]);
    }
  }

  /** Both rounds: from any assignment of holders, cyclic swaps included, to every name where it is wanted. */
  lemma TwoRoundsConverge(cfgs: seq<Config>, demand: seq<seq<Endpoint>>, w: World, first: seq<Label>,
    second: seq<Label>, more: seq<Label>)
    requires Cooperative(cfgs, demand) && WellNumbered(cfgs, w) && Fresh(w) && AllHeld(cfgs, w.store)
    requires LawfulRun(cfgs, demand, w, first) && RoundDone(w, Run(cfgs, w, first))
    requires LawfulRun(cfgs, demand, Run(cfgs, w, first), second)
    requires RoundDone(Run(cfgs, w, first), Run(cfgs, Run(cfgs, w, first), second))
    requires LawfulRun(cfgs, demand, Run(cfgs, Run(cfgs, w, first), second), more)
    ensures Converged(cfgs, demand, Run(cfgs, Run(cfgs, w, first), second).store)
    ensures Converged(cfgs, demand, Run(cfgs, Run(cfgs, Run(cfgs, w, first), second), more).store)
  {
    FirstRoundCleans(cfgs, demand, w, first);
    SecondRoundConverges(cfgs, demand, Run(cfgs, w, first), second, more);
  }
}
