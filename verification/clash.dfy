/**
 Over arbitrary plans, lawful or not, cross-owner safety is exact: whenever two instances clash, some run
 has one of them alter a route the other has tagged, because it acts on an index it read before the other
 claimed the route. The plans of these runs need not be what a planner would make; LawfulClashes has those.
 */
module Clashes {
  import opened Wrappers
  import opened Text
  import opened FragmentCodec
  import opened Resolver
  import opened Routes
  import opened Reconcile
  import opened Protocol
  import opened Safety
  import opened Solo

  const GOOD_LABEL := "service" + "/" + "a" + "/" + "b"

  /** An endpoint for the host that can be answered in-cluster. */
  function AskedTo(h: string, target: string): Endpoint {
    Endpoint(h, target, map[RESOURCE_LABEL := GOOD_LABEL])
  }

  function Asked(h: string): Endpoint {
    AskedTo(h, "")
  }

  function AlwaysWorks(op: Op, key: string): Reply {
    Works
  }

  /** Every call works, nothing is desired beforehand, and this is what the planner asks for. */
  function Working(cfg: Config, s: Store, ch: Changes): Drive {
    Drive(AlwaysWorks, [], ch, OwnedIndex(cfg, s))
  }

  /** One untagged route. */
  function Untagged(h: string, t: string): Route {
    Route(0, h, t, "", false)
  }

  function OneRoute(h: string, r: Route): Store {
    Store(map[h := r], {}, 1)
  }

  /** Alone, an idle instance gets to its calls, decided on the account as it is. */
  lemma GetsToCalls(cfg: Config, s: Store, x: Inst, ch: Changes) returns (x1: Inst)
    requires x.phase.Idle? && !IsEmptyPlan(ch)
    ensures Reaches(cfg, Working(cfg, s, ch), s, x, s, x1)
    ensures x1.phase == Calling(IndexFor(cfg, s, ch), ExistingFor(cfg, s, ch), DecisionsFor(cfg, s, ch), None)
  {
    var d := Working(cfg, s, ch);
    assert SkippedFor(cfg, Repair(cfg, [], Reported(cfg, s))) == map[];
    var y := StartsCycle(cfg, d, s, x);
    PlansCalls(cfg, d, s, y);
    x1 := Write(cfg, y, ch, IndexFor(cfg, s, ch), ExistingFor(cfg, s, ch), d.env);
    ReachesThen(cfg, d, s, x, s, y, s, x1);
  }

  lemma AskedAnswered(cfg: Config, h: string, target: string)
    requires IsLower(h) && (cfg.coredns ==> '*' !in h)
    ensures SkippedFor(cfg, Changes([AskedTo(h, target)], [], [])) == map[]
  {
    var eps := [AskedTo(h, target)];
    assert eps[..0] == [];
    ServiceTargetExact(GOOD_LABEL, cfg.clusterDomain, "b" + "." + "a" + ".svc." + cfg.clusterDomain);
    assert GOOD_LABEL == "service" + "/" + "a" + "/" + "b" && '/' !in "a";
    assert Skips(cfg, eps[..0]) == map[];
  }

  /** The plan by which an instance meddles with an untagged route: a delete, or a claim. */
  function Meddling(cfg: Config, h: string): Changes {
    if cfg.strict then Changes([Asked(h)], [], []) else Changes([], [Asked(h)], [])
  }

  function MeddlingCall(cfg: Config, h: string): Call {
    if cfg.strict then Adopt(h, 0, Tag(cfg.owner)) else Delete(h, 0)
  }

  lemma MeddlingDecided(cfg: Config, h: string, t: string)
    requires IsLower(h) && Grabs(cfg, h, t)
    ensures DecisionsFor(cfg, OneRoute(h, Untagged(h, t)), Meddling(cfg, h)) == [Go(MeddlingCall(cfg, h))]
  {
    var s := OneRoute(h, Untagged(h, t));
    NoComment();
    if cfg.strict {
      AskedAnswered(cfg, h, "");
      assert ExistingFor(cfg, s, Meddling(cfg, h)) == s.live;
    } else {
      assert h in IndexFor(cfg, s, Meddling(cfg, h));
    }
  }

  /** An instance that can claim the host's untagged route where it is, does. */
  lemma ClaimDecided(cfg: Config, h: string, t: string, target: string)
    requires IsLower(h) && Claims(cfg, h) && t in Tunnels(cfg.resolver) && Resolve(cfg.resolver, h) == Some(t)
    ensures DecisionsFor(cfg, OneRoute(h, Untagged(h, t)), Changes([AskedTo(h, target)], [], [])) ==
      [Go(Adopt(h, 0, Tag(cfg.owner)))]
  {
    var s, ch := OneRoute(h, Untagged(h, t)), Changes([AskedTo(h, target)], [], []);
    NoComment();
    AskedAnswered(cfg, h, target);
    assert ExistingFor(cfg, s, ch) == s.live;
  }

  lemma MoveDecided(cfg: Config, h: string, t: string, want: string)
    requires IsLower(h) && !cfg.strict && cfg.matches(h) && t in Tunnels(cfg.resolver)
    requires Resolve(cfg.resolver, h) == Some(want) && want != t
    ensures DecisionsFor(cfg, OneRoute(h, Untagged(h, t)), Changes([], [], [Asked(h)])) ==
      [Go(Retarget(h, 0, want, ""))]
  {
    NoComment();
    assert h in IndexFor(cfg, OneRoute(h, Untagged(h, t)), Changes([], [], [Asked(h)]));
  }

  lemma OneCall(cfg: Config, s: Store, x: Inst, d: Drive, index: Index, existing: Index, c: Call) returns (x1: Inst)
    requires x.phase == Calling(index, existing, [Go(c)], None) && !cfg.dryRun && d.env == AlwaysWorks
    ensures Reaches(cfg, d, s, x, Perform(s, c, Works).0, x1) && x1.phase.Idle?
  {
    var s1 := Perform(s, c, Works).0;
    var y := Called(cfg, s, x, index, existing, [Go(c)], None, d.env).1;
    CalledParts(cfg, s, x, index, existing, [Go(c)], None, d.env);
    x1 := Finish(y);
    ReachesNext(cfg, d, s, x, s1, y);
    ReachesNext(cfg, d, s1, y, s1, x1);
    ReachesThen(cfg, d, s, x, s1, y, s1, x1);
  }

  /** The other instances stand as before, and h has one route, of id 0, with this tunnel and comment. */
  ghost predicate Stands(w: World, w': World, i: nat, h: string, t: string, m: string) {
    && |w'.insts| == |w.insts| && (forall j :: 0 <= j < |w.insts| && j != i ==> w'.insts[j] == w.insts[j])
    && w'.store.live == map[h := Route(0, h, t, m, false)]
  }

  /** One cycle of one call, alone. */
  lemma CycleOfOneCall(cfgs: seq<Config>, w: World, i: nat, ch: Changes, c: Call) returns (ls: seq<Label>)
    requires WellNumbered(cfgs, w) && i < |cfgs| && w.insts[i].phase.Idle? && !cfgs[i].dryRun && !IsEmptyPlan(ch)
    requires DecisionsFor(cfgs[i], w.store, ch) == [Go(c)]
    ensures var w' := Run(cfgs, w, ls);
      && w'.store == Perform(w.store, c, Works).0 && w'.insts[i].phase.Idle?
      && forall j :: 0 <= j < |w.insts| && j != i ==> w'.insts[j] == w.insts[j]
  {
    var y := GetsToCalls(cfgs[i], w.store, w.insts[i], ch);
    var z := OneCall(cfgs[i], w.store, y, Working(cfgs[i], w.store, ch), y.phase.index, y.phase.existing, c);
    ReachesThen(cfgs[i], Working(cfgs[i], w.store, ch), w.store, w.insts[i], w.store, y, Perform(w.store, c, Works).0,
      z);
    ls := RunReaches(cfgs, w, i, Working(cfgs[i], w.store, ch), Perform(w.store, c, Works).0, z);
  }

  lemma MovedRoute(h: string, t: string, want: string)
    requires want != ""
    ensures Perform(OneRoute(h, Untagged(h, t)), Retarget(h, 0, want, ""), Works).0 == OneRoute(h, Untagged(h, want))
  {
    var s := OneRoute(h, Untagged(h, t));
    assert h in s.live && HasId(s, 0);
    assert RetargetId(s, 0, want, "").live == map[h := Untagged(h, want)];
  }

  lemma ClaimedRoute(h: string, t: string, comment: string)
    ensures Perform(OneRoute(h, Untagged(h, t)), Adopt(h, 0, comment), Works).0.live ==
      map[h := Route(0, h, t, comment, false)]
  {
    var s := OneRoute(h, Untagged(h, t));
    assert h in s.live && HasId(s, 0);
  }

  /** An instance that may act on the route brings it, if need be, to the tunnel it wants. */
  lemma Brings(cfgs: seq<Config>, w: World, i: nat, h: string, t: string) returns (ls: seq<Label>)
    requires Fleet(cfgs) && WellNumbered(cfgs, w) && i < |cfgs| && w.insts[i].phase.Idle? && IsLower(h)
    requires w.store == OneRoute(h, Untagged(h, t)) && Claims(cfgs[i], h) && Grabs(cfgs[i], h, t)
    ensures var w', want := Run(cfgs, w, ls), Resolve(cfgs[i].resolver, h).value;
      && w'.store == OneRoute(h, Untagged(h, want)) && w'.insts[i].phase.Idle?
      && forall j :: 0 <= j < |w.insts| && j != i ==> w'.insts[j] == w.insts[j]
  {
    var want := Resolve(cfgs[i].resolver, h).value;
    ls := [];
    if want != t {
      MoveDecided(cfgs[i], h, t, want);
      ResolvesToConfigured(cfgs[i].resolver, h);
      MovedRoute(h, t, want);
      ls := CycleOfOneCall(cfgs, w, i, Changes([], [], [Asked(h)]), Retarget(h, 0, want, ""));
    }
  }

  /** An instance that finds the route where it wants it claims it. */
  lemma ClaimsThere(cfgs: seq<Config>, w: World, i: nat, h: string) returns (ls: seq<Label>)
    requires Fleet(cfgs) && WellNumbered(cfgs, w) && i < |cfgs| && w.insts[i].phase.Idle? && IsLower(h)
    requires Claims(cfgs[i], h)
    requires w.store == OneRoute(h, Untagged(h, Resolve(cfgs[i].resolver, h).value))
    ensures Stands(w, Run(cfgs, w, ls), i, h, Resolve(cfgs[i].resolver, h).value, Tag(cfgs[i].owner))
  {
    var want := Resolve(cfgs[i].resolver, h).value;
    ResolvesToConfigured(cfgs[i].resolver, h);
    ClaimDecided(cfgs[i], h, want, "");
    ClaimedRoute(h, want, Tag(cfgs[i].owner));
    ls := CycleOfOneCall(cfgs, w, i, Changes([Asked(h)], [], []), Adopt(h, 0, Tag(cfgs[i].owner)));
  }

  /** It moves the route, then claims it. */
  lemma BringsAndClaims(cfgs: seq<Config>, w: World, i: nat, h: string, t: string) returns (ls: seq<Label>)
    requires Fleet(cfgs) && WellNumbered(cfgs, w) && i < |cfgs| && w.insts[i].phase.Idle? && IsLower(h)
    requires w.store == OneRoute(h, Untagged(h, t)) && Claims(cfgs[i], h) && Grabs(cfgs[i], h, t)
    ensures Stands(w, Run(cfgs, w, ls), i, h, Resolve(cfgs[i].resolver, h).value, Tag(cfgs[i].owner))
  {
    var first := Brings(cfgs, w, i, h, t);
    var second := ClaimsThere(cfgs, Run(cfgs, w, first), i, h);
    RunConcat(cfgs, w, first, second);
    ls := first + second;
  }

  /** What an instance about to meddle does to the route another has just claimed. */
  lemma MeddlesAfterClaim(cfgs: seq<Config>, w: World, i: nat, j: nat, h: string, t: string, ch: Changes)
    requires Fleet(cfgs) && WellNumbered(cfgs, w) && i < |cfgs| && j < |cfgs| && i != j && !cfgs[j].dryRun
    requires w.store.live == map[h := Route(0, h, t, Tag(cfgs[i].owner), false)]
    requires w.insts[j].phase.Calling? && w.insts[j].phase.todo == [Go(MeddlingCall(cfgs[j], h))]
    ensures !Spares(cfgs, w, Act(j, AlwaysWorks, [], ch))
  {
    var l, c := Act(j, AlwaysWorks, [], ch), MeddlingCall(cfgs[j], h);
    NextStore(cfgs, w, l);
    assert h in w.store.live && HasId(w.store, 0);
    var s' := Next(cfgs, w, l).store;
    assert s' == Effect(w.store, c);
    assert RouteOwner(Tag(cfgs[i].owner)) == Some(cfgs[i].owner);
    assert RouteOwner(Tag(cfgs[j].owner)) == Some(cfgs[j].owner);
    assert h !in s'.live || s'.live[h] != w.store.live[h];
  }

  function FreshWorld(cfgs: seq<Config>, s: Store): World {
    World(s, seq(|cfgs|, _ => Inst(Idle, map[], {}, {}, false, map[], 0, 0, false, {}, {})))
  }

  lemma FreshWorldIsFresh(cfgs: seq<Config>, h: string, t: string)
    requires IsLower(h)
    ensures WellNumbered(cfgs, FreshWorld(cfgs, OneRoute(h, Untagged(h, t))))
    ensures Fresh(FreshWorld(cfgs, OneRoute(h, Untagged(h, t))))
  {
  }

  /** One instance reads the untagged route and is about to meddle with it. */
  lemma AboutToMeddle(cfgs: seq<Config>, w: World, j: nat, h: string, t: string) returns (ls: seq<Label>, y: Inst)
    requires WellNumbered(cfgs, w) && j < |cfgs| && w.insts[j].phase.Idle? && IsLower(h)
    requires w.store == OneRoute(h, Untagged(h, t)) && Grabs(cfgs[j], h, t)
    ensures Run(cfgs, w, ls) == World(w.store, w.insts[j := y])
    ensures y.phase.Calling? && y.phase.todo == [Go(MeddlingCall(cfgs[j], h))]
  {
    var ch := Meddling(cfgs[j], h);
    MeddlingDecided(cfgs[j], h, t);
    y := GetsToCalls(cfgs[j], w.store, w.insts[j], ch);
    ls := RunReaches(cfgs, w, j, Working(cfgs[j], w.store, ch), w.store, y);
  }

  /** Whenever two instances clash, some run breaks cross-owner safety. */
  lemma ClashBreaksSafety(cfgs: seq<Config>, i: nat, j: nat, h: string, t: string)
    returns (w: World, ls: seq<Label>, l: Label)
    requires Fleet(cfgs) && i < |cfgs| && j < |cfgs| && i != j && IsLower(h) && Clash(cfgs[i], cfgs[j], h, t)
    ensures WellNumbered(cfgs, w) && Fresh(w) && !Spares(cfgs, Run(cfgs, w, ls), l)
  {
    w := FreshWorld(cfgs, OneRoute(h, Untagged(h, t)));
    FreshWorldIsFresh(cfgs, h, t);
    var before, y := AboutToMeddle(cfgs, w, j, h, t);
    var w1 := World(w.store, w.insts[j := y]);
    var claims := BringsAndClaims(cfgs, w1, i, h, t);
    RunConcat(cfgs, w, before, claims);
    ls := before + claims;
    var none := Changes([], [], []);
    l := Act(j, AlwaysWorks, [], none);
    MeddlesAfterClaim(cfgs, Run(cfgs, w1, claims), i, j, h, Resolve(cfgs[i].resolver, h).value, none);
  }

  ghost predicate AlwaysSpares(cfgs: seq<Config>) {
    forall w, ls, l :: WellNumbered(cfgs, w) && Fresh(w) ==> Spares(cfgs, Run(cfgs, w, ls), l)
  }

  /**
   Instances with owner ids of their own leave each other's routes alone whatever they are told to plan
   exactly when no two of them may act on the same untagged route while one of them claims such routes.
   */
  lemma SafeExactlyWithoutClash(cfgs: seq<Config>)
    requires Fleet(cfgs)
    ensures AlwaysSpares(cfgs) <==> NoClash(cfgs)
  {
    if NoClash(cfgs) {
      forall w, ls, l | WellNumbered(cfgs, w) && Fresh(w)
        ensures Spares(cfgs, Run(cfgs, w, ls), l)
      {
        CrossOwnerSafety(cfgs, w, ls, l);
      }
    } else {
      var i, j, h, t :| 0 <= i < |cfgs| && 0 <= j < |cfgs| && i != j && IsLower(h) && Clash(cfgs[i], cfgs[j], h, t);
      var w, ls, l := ClashBreaksSafety(cfgs, i, j, h, t);
    }
  }
}
