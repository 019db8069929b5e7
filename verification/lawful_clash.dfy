/**
 And under lawful plans cross-owner safety is exact too: whenever one instance claims where another may
 act, a run of two cycles and one route made by hand between two steps has one alter what the other tagged.
 */
module LawfulClashes {
  import opened Wrappers
  import opened Text
  import opened FragmentCodec
  import opened Resolver
  import opened Routes
  import opened Reconcile
  import opened PerHost
  import opened ProviderEngine
  import opened Stabilise
  import opened Protocol
  import opened Safety
  import opened Solo
  import opened Converge
  import opened Progressing
  import opened Clashes
  import opened LawfulSafety

  // Runs of events.

  /** Every instance has a demand of its own that never changes; every plan is for it. */
  ghost predicate SteadyEvent(cfgs: seq<Config>, demand: seq<seq<Endpoint>>, w: World, e: Event)
    requires WellNumbered(cfgs, w) && |demand| == |cfgs|
  {
    match e
    case ByInstance(l) => Lawful(cfgs, demand, w, l)
    case Made(_, _, comment) => !IsTagged(comment)
  }

  ghost predicate SteadyEvents(cfgs: seq<Config>, demand: seq<seq<Endpoint>>, w: World, es: seq<Event>)
    requires WellNumbered(cfgs, w) && |demand| == |cfgs|
    decreases |es|
  {
    es == [] || (SteadyEvent(cfgs, demand, w, es[0]) && SteadyEvents(cfgs, demand, Happen(cfgs, w, es[0]), es[1..]))
  }

  lemma {:induction false} SteadyIsLawful(cfgs: seq<Config>, demand: seq<seq<Endpoint>>, w: World, es: seq<Event>)
    requires WellNumbered(cfgs, w) && |demand| == |cfgs| && SteadyEvents(cfgs, demand, w, es)
    ensures LawfulEvents(cfgs, w, es)
    decreases |es|
  {
    if es != [] {
      SteadyIsLawful(cfgs, demand, Happen(cfgs, w, es[0]), es[1..]);
    }
  }

  function Steps(ls: seq<Label>): (es: seq<Event>)
    ensures |es| == |ls|
  {
    if ls == [] then [] else [ByInstance(ls[0])] + Steps(ls[1..])
  }

  lemma {:induction false} StepsRun(cfgs: seq<Config>, demand: seq<seq<Endpoint>>, w: World, ls: seq<Label>)
    requires WellNumbered(cfgs, w) && |demand| == |cfgs| && LawfulRun(cfgs, demand, w, ls)
    ensures SteadyEvents(cfgs, demand, w, Steps(ls)) && Unfold(cfgs, w, Steps(ls)) == Run(cfgs, w, ls)
    decreases |ls|
  {
    if ls != [] {
      assert Steps(ls)[1..] == Steps(ls[1..]);
      StepsRun(cfgs, demand, Next(cfgs, w, ls[0]), ls[1..]);
    }
  }

  lemma {:induction false} EventsConcat(cfgs: seq<Config>, demand: seq<seq<Endpoint>>, w: World, a: seq<Event>,
    b: seq<Event>)
    requires WellNumbered(cfgs, w) && |demand| == |cfgs|
    requires SteadyEvents(cfgs, demand, w, a) && SteadyEvents(cfgs, demand, Unfold(cfgs, w, a), b)
    ensures SteadyEvents(cfgs, demand, w, a + b) && Unfold(cfgs, w, a + b) == Unfold(cfgs, Unfold(cfgs, w, a), b)
    decreases |a|
  {
    if a == [] {
      assert a + b == b;
    } else {
      assert (a + b)[1..] == a[1..] + b && (a + b)[0] == a[0];
      EventsConcat(cfgs, demand, Happen(cfgs, w, a[0]), a[1..], b);
    }
  }

  // The two demands and the two plans.

  /** What the host becomes once it is adjusted. */
  function Wanted(cfg: Config, h: string): Endpoint
    requires Resolve(cfg.resolver, h).Some?
  {
    AskedTo(h, Target(Resolve(cfg.resolver, h).value))
  }

  lemma WantedAdjusted(cfg: Config, h: string)
    requires cfg.matches(h) && Resolve(cfg.resolver, h).Some?
    ensures Adjust(cfg, [Asked(h)]) == [Wanted(cfg, h)]
  {
    assert [Asked(h)][..0] == [] && Adjust(cfg, []) == [];
  }

  /** A claimer wants the host; an instance that sees the untagged route wants nothing. */
  function Wish(cfg: Config, h: string): seq<Endpoint> {
    if cfg.strict then [Asked(h)] else []
  }

  function Claim(cfg: Config, h: string): Changes
    requires Resolve(cfg.resolver, h).Some?
  {
    Changes([Wanted(cfg, h)], [], [])
  }

  function Meddle(cfg: Config, h: string): Changes
    requires cfg.strict ==> Resolve(cfg.resolver, h).Some?
  {
    if cfg.strict then Claim(cfg, h) else Changes([], [Asked(h)], [])
  }

  function Nothing(): Store {
    Store(map[], {}, 0)
  }

  /** A view in which the host is not reported plans its create. */
  lemma ClaimIsPlan(cfg: Config, h: string, seen: Index)
    requires IsLower(h) && Resolve(cfg.resolver, h).Some? && seen == map[]
    ensures IsPlanOf(cfg, seen, [Wanted(cfg, h)], Claim(cfg, h))
  {
    forall k
      ensures HasKey([Wanted(cfg, h)], k) <==> k == h
    {
      assert HasKey([Wanted(cfg, h)], h) by {
        assert Key([Wanted(cfg, h)][0]) == h;
      }
    }
    assert forall k :: !HasKey([], k);
  }

  /** A view that reports only the host, not wanted, plans its delete. */
  lemma DeleteIsPlan(cfg: Config, h: string, seen: Index)
    requires IsLower(h) && cfg.matches(h) && seen.Keys == {h}
    ensures IsPlanOf(cfg, seen, [], Changes([], [Asked(h)], []))
  {
    forall k
      ensures HasKey([Asked(h)], k) <==> k == h
    {
      assert HasKey([Asked(h)], h) by {
        assert Key([Asked(h)][0]) == h;
      }
    }
    assert forall k :: !HasKey([], k);
  }

  // The cycles.

  function Driven(cfg: Config, s: Store, eps: seq<Endpoint>, ch: Changes): Drive {
    Drive(AlwaysWorks, eps, ch, OwnedIndex(cfg, s))
  }

  /** With nothing reported that is wanted, AdjustEndpoints has nothing to repair. */
  lemma NothingToRepair(cfg: Config, d: Drive, s: Store, x: Inst)
    requires d.env == AlwaysWorks && Existing(Adjust(cfg, d.eps), Reported(cfg, s)) == []
    ensures Adjusts(cfg, d, s, x).ok
  {
    var change := Repair(cfg, d.eps, Reported(cfg, s));
    assert change.create == [];
    assert SkippedFor(cfg, change) == map[];
  }

  lemma NoneExisting(cfg: Config, eps: seq<Endpoint>, hosts: set<string>)
    requires forall ep :: ep in eps ==> Key(ep) !in hosts
    ensures Existing(eps, hosts) == []
  {
    ExistingAt(eps, hosts);
    if Existing(eps, hosts) != [] {
      assert Existing(eps, hosts)[0] in Existing(eps, hosts);
    }
  }

  /** Up to the plan, and past it. */
  lemma GetsPastPlan(cfg: Config, d: Drive, s: Store, x: Inst) returns (x1: Inst)
    requires x.phase.Idle? && d.env == AlwaysWorks && d.view == OwnedIndex(cfg, s) && !IsEmptyPlan(d.ch)
    requires Existing(Adjust(cfg, d.eps), Reported(cfg, s)) == []
    ensures Reaches(cfg, d, s, x, s, x1)
    ensures x1.phase == Indexing(d.ch, if NeedsIndex(d.ch) then Tunnels(cfg.resolver) else [], map[])
  {
    NothingToRepair(cfg, d, s, x);
    var y := StartsCycle(cfg, d, s, x);
    x1 := Plan(cfg, y, d.ch);
    ReachesNext(cfg, d, s, y, s, x1);
    ReachesThen(cfg, d, s, x, s, y, s, x1);
  }

  /** From the plan to the calls, on the account as it is by then. */
  lemma GoesOnToCalls(cfg: Config, d: Drive, s: Store, x: Inst) returns (x1: Inst)
    requires d.env == AlwaysWorks
    requires x.phase == Indexing(d.ch, if NeedsIndex(d.ch) then Tunnels(cfg.resolver) else [], map[])
    ensures Reaches(cfg, d, s, x, s, x1)
    ensures x1.phase == Calling(IndexFor(cfg, s, d.ch), ExistingFor(cfg, s, d.ch), DecisionsFor(cfg, s, d.ch), None)
  {
    var y := x.(phase := Writing(d.ch, IndexFor(cfg, s, d.ch), ExistingFor(cfg, s, d.ch)));
    ReadsAll(cfg, d, s, x, d.ch);
    x1 := Write(cfg, y, d.ch, IndexFor(cfg, s, d.ch), ExistingFor(cfg, s, d.ch), d.env);
    ReachesNext(cfg, d, s, y, s, x1);
    ReachesThen(cfg, d, s, x, s, y, s, x1);
  }

  /** The view of the one who meddles: the untagged route, or nothing. */
  lemma MeddleIsPlan(cfg: Config, h: string, t: string)
    requires IsLower(h) && Grabs(cfg, h, t)
    ensures var s := OneRoute(h, Untagged(h, t));
      && IsPlanOf(cfg, OwnedIndex(cfg, s), Adjust(cfg, Wish(cfg, h)), Meddle(cfg, h))
      && Existing(Adjust(cfg, Wish(cfg, h)), Reported(cfg, s)) == [] && !IsEmptyPlan(Meddle(cfg, h))
  {
    var s := OneRoute(h, Untagged(h, t));
    NoComment();
    if cfg.strict {
      WantedAdjusted(cfg, h);
      assert OwnedIndex(cfg, s) == map[] && Reported(cfg, s) == {};
      ClaimIsPlan(cfg, h, map[]);
      NoneExisting(cfg, [Wanted(cfg, h)], {});
    } else {
      assert Adjust(cfg, []) == [];
      assert OwnedIndex(cfg, s).Keys == {h};
      DeleteIsPlan(cfg, h, OwnedIndex(cfg, s));
    }
  }

  lemma MeddleDecided(cfg: Config, h: string, t: string)
    requires IsLower(h) && Grabs(cfg, h, t)
    ensures DecisionsFor(cfg, OneRoute(h, Untagged(h, t)), Meddle(cfg, h)) == [Go(MeddlingCall(cfg, h))]
  {
    if cfg.strict {
      ClaimDecided(cfg, h, t, Target(t));
    } else {
      MeddlingDecided(cfg, h, t);
    }
  }

  // The run.

  /** Both wish for what they wish for, and the others for nothing. */
  function Wishes(cfgs: seq<Config>, i: nat, j: nat, h: string): (demand: seq<seq<Endpoint>>)
    requires i < |cfgs| && j < |cfgs|
    ensures |demand| == |cfgs|
  {
    seq(|cfgs|, k requires 0 <= k < |cfgs| => if k == i then [Asked(h)] else if k == j then Wish(cfgs[j], h) else [])
  }

  /** First: the claimer plans to create the host, which nobody holds. */
  lemma PlansToClaim(cfgs: seq<Config>, demand: seq<seq<Endpoint>>, w: World, i: nat, h: string)
    returns (ls: seq<Label>, x1: Inst)
    requires WellNumbered(cfgs, w) && |demand| == |cfgs| && i < |cfgs| && w.insts[i].phase.Idle? && IsLower(h)
    requires w.store == Nothing() && Claims(cfgs[i], h) && demand[i] == [Asked(h)]
    ensures LawfulRun(cfgs, demand, w, ls) && Run(cfgs, w, ls) == World(w.store, w.insts[i := x1])
    ensures x1.phase == Indexing(Claim(cfgs[i], h), [], map[])
  {
    var cfg, s := cfgs[i], w.store;
    var d := Driven(cfg, s, [Asked(h)], Claim(cfg, h));
    assert OwnedIndex(cfg, s) == map[] && Reported(cfg, s) == {};
    WantedAdjusted(cfg, h);
    NoneExisting(cfg, [Wanted(cfg, h)], {});
    ClaimIsPlan(cfg, h, map[]);
    x1 := GetsPastPlan(cfg, d, s, w.insts[i]);
    ls := RunReachesLawfully(cfgs, demand, w, i, d, s, x1);
  }

  /** Then: the route is made by hand, and the other reads it and is about to act on it. */
  lemma ReadsToMeddle(cfgs: seq<Config>, demand: seq<seq<Endpoint>>, w: World, j: nat, h: string, t: string)
    returns (ls: seq<Label>, y: Inst)
    requires WellNumbered(cfgs, w) && |demand| == |cfgs| && j < |cfgs| && w.insts[j].phase.Idle? && IsLower(h)
    requires w.store == OneRoute(h, Untagged(h, t)) && Grabs(cfgs[j], h, t) && demand[j] == Wish(cfgs[j], h)
    ensures LawfulRun(cfgs, demand, w, ls) && Run(cfgs, w, ls) == World(w.store, w.insts[j := y])
    ensures y.phase.Calling? && y.phase.todo == [Go(MeddlingCall(cfgs[j], h))]
  {
    var cfg, s := cfgs[j], w.store;
    var d := Driven(cfg, s, Wish(cfg, h), Meddle(cfg, h));
    MeddleIsPlan(cfg, h, t);
    MeddleDecided(cfg, h, t);
    var z := GetsPastPlan(cfg, d, s, w.insts[j]);
    y := GoesOnToCalls(cfg, d, s, z);
    ReachesThen(cfg, d, s, w.insts[j], s, z, s, y);
    ls := RunReachesLawfully(cfgs, demand, w, j, d, s, y);
  }

  /** Then: the claimer goes on, finds the route where it wants it, and claims it. */
  lemma GoesOnToClaim(cfgs: seq<Config>, demand: seq<seq<Endpoint>>, w: World, i: nat, h: string, t: string)
    returns (ls: seq<Label>)
    requires Fleet(cfgs) && WellNumbered(cfgs, w) && |demand| == |cfgs| && i < |cfgs| && IsLower(h)
    requires Claims(cfgs[i], h)
    requires Resolve(cfgs[i].resolver, h) == Some(t) && demand[i] == [Asked(h)]
    requires w.store == OneRoute(h, Untagged(h, t)) && w.insts[i].phase == Indexing(Claim(cfgs[i], h), [], map[])
    ensures LawfulRun(cfgs, demand, w, ls)
    ensures Stands(w, Run(cfgs, w, ls), i, h, t, Tag(cfgs[i].owner))
  {
    var cfg, s, c := cfgs[i], w.store, Adopt(h, 0, Tag(cfgs[i].owner));
    var d := Driven(cfg, Nothing(), [Asked(h)], Claim(cfg, h));
    assert OwnedIndex(cfg, Nothing()) == map[];
    WantedAdjusted(cfg, h);
    ClaimIsPlan(cfg, h, map[]);
    ResolvesToConfigured(cfg.resolver, h);
    ClaimDecided(cfg, h, t, Target(t));
    ClaimedRoute(h, t, Tag(cfg.owner));
    var y := GoesOnToCalls(cfg, d, s, w.insts[i]);
    var z := OneCall(cfg, s, y, d, y.phase.index, y.phase.existing, c);
    ReachesThen(cfg, d, s, w.insts[i], s, y, Perform(s, c, Works).0, z);
    ls := RunReachesLawfully(cfgs, demand, w, i, d, Perform(s, c, Works).0, z);
  }

  lemma MadeRoute(cfgs: seq<Config>, w: World, h: string, t: string)
    requires WellNumbered(cfgs, w) && w.store == Nothing() && IsLower(h)
    ensures Happen(cfgs, w, Made(h, t, "")) == World(OneRoute(h, Untagged(h, t)), w.insts)
  {
  }

  /** The first half of the run: planned, made, read. */
  lemma PlannedMadeRead(cfgs: seq<Config>, demand: seq<seq<Endpoint>>, w: World, i: nat, j: nat, h: string, t: string)
    returns (es: seq<Event>)
    requires WellNumbered(cfgs, w) && |demand| == |cfgs| && i < |cfgs| && j < |cfgs| && i != j && IsLower(h)
    requires w.store == Nothing() && w.insts[i].phase.Idle? && w.insts[j].phase.Idle?
    requires Claims(cfgs[i], h) && Grabs(cfgs[j], h, t) && demand[i] == [Asked(h)] && demand[j] == Wish(cfgs[j], h)
    ensures SteadyEvents(cfgs, demand, w, es)
    ensures var w' := Unfold(cfgs, w, es);
      && w'.store == OneRoute(h, Untagged(h, t)) && w'.insts[i].phase == Indexing(Claim(cfgs[i], h), [], map[])
      && w'.insts[j].phase.Calling? && w'.insts[j].phase.todo == [Go(MeddlingCall(cfgs[j], h))]
  {
    var first, x1 := PlansToClaim(cfgs, demand, w, i, h);
    StepsRun(cfgs, demand, w, first);
    var w1, made := Run(cfgs, w, first), Made(h, t, "");
    MadeRoute(cfgs, w1, h, t);
    NoComment();
    var w2 := Happen(cfgs, w1, made);
    var second, y := ReadsToMeddle(cfgs, demand, w2, j, h, t);
    StepsRun(cfgs, demand, w2, second);
    assert ([made] + Steps(second))[1..] == Steps(second);
    EventsConcat(cfgs, demand, w, Steps(first), [made] + Steps(second));
    es := Steps(first) + ([made] + Steps(second));
  }

  /** The second half: claimed, and then altered. */
  lemma ClaimedAltered(cfgs: seq<Config>, demand: seq<seq<Endpoint>>, w: World, i: nat, j: nat, h: string, t: string)
    returns (es: seq<Event>, l: Label)
    requires Fleet(cfgs) && WellNumbered(cfgs, w) && |demand| == |cfgs| && i < |cfgs| && j < |cfgs| && i != j
    requires IsLower(h) && Claims(cfgs[i], h) && Resolve(cfgs[i].resolver, h) == Some(t) && !cfgs[j].dryRun
    requires demand[i] == [Asked(h)] && w.store == OneRoute(h, Untagged(h, t))
    requires w.insts[i].phase == Indexing(Claim(cfgs[i], h), [], map[])
    requires w.insts[j].phase.Calling? && w.insts[j].phase.todo == [Go(MeddlingCall(cfgs[j], h))]
    ensures SteadyEvents(cfgs, demand, w, es) && !Spares(cfgs, Unfold(cfgs, w, es), l)
  {
    var claims := GoesOnToClaim(cfgs, demand, w, i, h, t);
    StepsRun(cfgs, demand, w, claims);
    es := Steps(claims);
    var none := Changes([], [], []);
    l := Act(j, AlwaysWorks, [], none);
    MeddlesAfterClaim(cfgs, Run(cfgs, w, claims), i, j, h, t, none);
  }

  lemma NothingIsFresh(cfgs: seq<Config>)
    ensures var w := FreshWorld(cfgs, Nothing());
      && WellNumbered(cfgs, w) && Fresh(w) && w.store == Nothing()
      && forall k :: 0 <= k < |cfgs| ==> w.insts[k].phase.Idle?
  {
  }

  lemma BothHalves(cfgs: seq<Config>, demand: seq<seq<Endpoint>>, w: World, i: nat, j: nat, h: string, t: string)
    returns (es: seq<Event>, l: Label)
    requires Fleet(cfgs) && WellNumbered(cfgs, w) && |demand| == |cfgs| && i < |cfgs| && j < |cfgs| && i != j
    requires IsLower(h) && Claims(cfgs[i], h) && Resolve(cfgs[i].resolver, h) == Some(t) && Grabs(cfgs[j], h, t)
    requires demand[i] == [Asked(h)] && demand[j] == Wish(cfgs[j], h)
    requires w.store == Nothing() && w.insts[i].phase.Idle? && w.insts[j].phase.Idle?
    ensures SteadyEvents(cfgs, demand, w, es) && !Spares(cfgs, Unfold(cfgs, w, es), l)
  {
    var before := PlannedMadeRead(cfgs, demand, w, i, j, h, t);
    var after: seq<Event>;
    after, l := ClaimedAltered(cfgs, demand, Unfold(cfgs, w, before), i, j, h, t);
    EventsConcat(cfgs, demand, w, before, after);
    es := before + after;
  }

  /** Whenever one instance claims where another may act, some lawful run breaks cross-owner safety. */
  lemma LawfulClashBreaksSafety(cfgs: seq<Config>, i: nat, j: nat, h: string)
    returns (demand: seq<seq<Endpoint>>, w: World, es: seq<Event>, l: Label)
    requires Fleet(cfgs) && i < |cfgs| && j < |cfgs| && i != j && IsLower(h) && LawfulClash(cfgs[i], cfgs[j], h)
    ensures |demand| == |cfgs| && WellNumbered(cfgs, w) && Fresh(w) && SteadyEvents(cfgs, demand, w, es)
    ensures !Spares(cfgs, Unfold(cfgs, w, es), l)
  {
    demand := Wishes(cfgs, i, j, h);
    w := FreshWorld(cfgs, Nothing());
    NothingIsFresh(cfgs);
    es, l := BothHalves(cfgs, demand, w, i, j, h, Resolve(cfgs[i].resolver, h).value);
  }

  // Exactly.

  /** In every run of lawful plans, with routes appearing from outside, every step spares others' routes. */
  ghost predicate AlwaysSparesLawfully(cfgs: seq<Config>) {
    forall w, es, l :: WellNumbered(cfgs, w) && Fresh(w) && LawfulEvents(cfgs, w, es) ==>
      Spares(cfgs, Unfold(cfgs, w, es), l)
  }

  /** So in the runs in which no instance's demand ever changes. */
  ghost predicate AlwaysSparesSteadily(cfgs: seq<Config>) {
    forall demand, w, es, l ::
      |demand| == |cfgs| && WellNumbered(cfgs, w) && Fresh(w) && SteadyEvents(cfgs, demand, w, es) ==>
        Spares(cfgs, Unfold(cfgs, w, es), l)
  }

  /**
   Instances with owner ids of their own leave each other's routes alone in every run of lawful plans exactly
   when none claims untagged routes for a host where another may act on them. Whether what they want changes
   meanwhile makes no difference.
   */
  lemma SafeExactlyWithoutLawfulClash(cfgs: seq<Config>)
    requires Fleet(cfgs)
    ensures AlwaysSparesLawfully(cfgs) <==> NoLawfulClash(cfgs)
    ensures AlwaysSparesSteadily(cfgs) <==> NoLawfulClash(cfgs)
  {
    if NoLawfulClash(cfgs) {
      forall w, es, l | WellNumbered(cfgs, w) && Fresh(w) && LawfulEvents(cfgs, w, es)
        ensures Spares(cfgs, Unfold(cfgs, w, es), l)
      {
        LawfulPlansSpare(cfgs, w, es, l);
      }
      LawfullyIsSteadily(cfgs);
    } else {
      var i, j, h :|
        0 <= i < |cfgs| && 0 <= j < |cfgs| && i != j && IsLower(h) && LawfulClash(cfgs[i], cfgs[j], h);
      var demand, w, es, l := LawfulClashBreaksSafety(cfgs, i, j, h);
      SteadyIsLawful(cfgs, demand, w, es);
    }
  }

  lemma LawfullyIsSteadily(cfgs: seq<Config>)
    requires AlwaysSparesLawfully(cfgs)
    ensures AlwaysSparesSteadily(cfgs)
  {
    forall demand, w, es, l |
      |demand| == |cfgs| && WellNumbered(cfgs, w) && Fresh(w) && SteadyEvents(cfgs, demand, w, es)
      ensures Spares(cfgs, Unfold(cfgs, w, es), l)
    {
      SteadyIsLawful(cfgs, demand, w, es);
    }
  }
}
