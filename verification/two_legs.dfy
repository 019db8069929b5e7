/**
 A route and its rewrite: the fragment is written first and unwritten only for a planned delete, so in
 every reachable state a route this instance made has its rewrite, or was in a Delete that did not land.
 */
module TwoLegs {
  import opened Wrappers
  import opened Text
  import opened Sorting
  import opened FragmentCodec
  import opened Resolver
  import opened Routes
  import opened Reconcile
  import opened PerHost
  import opened Stabilise
  import opened Protocol
  import opened Safety

  /** A live route of this owner that the instance created or adopted. */
  predicate MadeAt(cfg: Config, s: Store, x: Inst, h: string) {
    OwnedAt(cfg, s, h) && s.live[h].id in x.made
  }

  /** Its rewrite is in the fragment, or a planned Delete took it away and nothing has given it back. */
  ghost predicate Answered(cfg: Config, s: Store, x: Inst) {
    forall h :: MadeAt(cfg, s, x, h) ==> h in x.rewrites || h in x.dropped
  }

  /** What is made is plain: no wildcard, on a listed tunnel, under an id already drawn. */
  ghost predicate Plain(cfg: Config, s: Store, x: Inst) {
    && (forall id :: id in x.made ==> id < s.next)
    && (forall h :: MadeAt(cfg, s, x, h) ==> '*' !in h && Lists(cfg, s.live[h].tunnel))
  }

  /** Records has seen every route of this owner on the tunnels it has listed. */
  ghost predicate SeesOwned(cfg: Config, s: Store, seen: Index, rest: seq<string>) {
    forall h :: OwnedAt(cfg, s, h) && Lists(cfg, s.live[h].tunnel) ==> h in seen || s.live[h].tunnel in rest
  }

  /** Every name still to be created or adopted already has its rewrite. */
  ghost predicate Staged(x: Inst, todo: seq<Decision>) {
    forall d :: d in todo ==> StagedCall(x.rewrites, d)
  }

  predicate StagedCall(m: Rewrites, d: Decision) {
    d.Go? && (d.call.Create? || d.call.Adopt?) ==> d.call.host in m && '*' !in d.call.host
  }

  ghost predicate Course(cfg: Config, s: Store, x: Inst) {
    match x.phase
    case Listing(rest, seen) => SeesOwned(cfg, s, seen, rest)
    case Adjusting(seen) =>
      && SeesOwned(cfg, s, seen, []) && x.recordsOK
      && x.ownedHosts == seen.Keys && x.recordsHosts == set h | h in seen && cfg.matches(h)
    case Pruning(seen, _) => SeesOwned(cfg, s, seen, []) && x.ownedHosts == seen.Keys && x.recordsOK
    case Calling(_, _, todo, _) => Staged(x, todo)
    case _ => true
  }

  ghost predicate Legs(cfg: Config, s: Store, x: Inst) {
    Answered(cfg, s, x) && Plain(cfg, s, x) && Course(cfg, s, x)
  }

  // Another instance's step.

  lemma LegsUnderOthers(cfgs: seq<Config>, w: World, l: Label, k: nat)
    requires Fleet(cfgs) && NoClash(cfgs) && AllSteady(cfgs, w) && k < |cfgs| && k != l.i
    requires Legs(cfgs[k], w.store, w.insts[k])
    ensures Legs(cfgs[k], Next(cfgs, w, l).store, w.insts[k])
  {
    var s, s', x := w.store, Next(cfgs, w, l).store, w.insts[k];
    forall h
      ensures OwnedAt(cfgs[k], s', h) <==> OwnedAt(cfgs[k], s, h)
      ensures OwnedAt(cfgs[k], s, h) ==> s'.live[h] == s.live[h]
    {
      OthersLeaveOwned(cfgs, w, l, k, h);
    }
    IdsGrow(cfgs, w, l);
    assert Course(cfgs[k], s', x);
  }

  lemma IdsGrow(cfgs: seq<Config>, w: World, l: Label)
    requires Fleet(cfgs) && NoClash(cfgs) && AllSteady(cfgs, w)
    ensures w.store.next <= Next(cfgs, w, l).store.next
  {
    NextStore(cfgs, w, l);
  }

  // The instance's own steps.

  lemma LegsListing(cfg: Config, s: Store, x: Inst, rest: seq<string>, seen: Index, env: Env)
    requires x.phase == Listing(rest, seen) && Legs(cfg, s, x)
    ensures Legs(cfg, s, NextListing(cfg, s, x, rest, seen, env))
  {
    if rest != [] {
      var more := seen + Selected(cfg, Own, s, [rest[0]]);
      forall h | OwnedAt(cfg, s, h) && Lists(cfg, s.live[h].tunnel)
        ensures h in more || s.live[h].tunnel in rest[1..]
      {
        assert h in seen || s.live[h].tunnel in rest;
      }
    }
  }

  lemma {:induction false} AddsAll(cfg: Config, eps: seq<Endpoint>, ep: Endpoint)
    requires ep in eps && cfg.matches(ep.dns) && Answer(cfg, ep).Success?
    ensures Key(ep) in Adds(cfg, eps)
  {
    if ep != eps[|eps| - 1] {
      assert ep in eps[..|eps| - 1];
      AddsAll(cfg, eps[..|eps| - 1], ep);
    }
  }

  /** An edit that only adds loses nothing; one that removes loses at most what it names. */
  lemma EditLoses(env: Env, stage: Stage, m: Rewrites, add: Rewrites, remove: seq<string>)
    ensures var e := EditFragment(env, stage, m, add, remove);
      && (forall h :: h in m && h !in e.after ==> h in remove)
      && (e.ok ==> forall h :: h in add ==> h in e.after)
  {
  }

  lemma LegLoses(cfg: Config, env: Env, stage: Stage, m: Rewrites, ch: Changes)
    requires !cfg.dryRun && cfg.coredns
    ensures var e := FragmentLeg(cfg, env, stage, m, ch);
      && (forall h :: h in m && h !in e.after ==> h in Removes(cfg, ch.delete))
      && (e.ok ==> forall h :: h in Adds(cfg, ch.create) ==> h in e.after)
  {
    EditLoses(env, stage, m, Adds(cfg, ch.create), Removes(cfg, ch.delete));
  }

  /** What AdjustEndpoints wants and Records reported has its rewrite once AdjustEndpoints succeeds. */
  lemma RepairAnswers(cfg: Config, env: Env, m: Rewrites, raw: seq<Endpoint>, hosts: set<string>, h: string)
    requires !cfg.dryRun && cfg.coredns && h in hosts && '*' !in h && h in Keys(Adjust(cfg, raw))
    requires SkippedFor(cfg, Repair(cfg, raw, hosts)) == map[]
    requires FragmentLeg(cfg, env, Stage.Reconciling, m, Repair(cfg, raw, hosts)).ok
    ensures h in FragmentLeg(cfg, env, Stage.Reconciling, m, Repair(cfg, raw, hosts)).after
  {
    var desired, eps := Adjust(cfg, raw), Repair(cfg, raw, hosts).create;
    var i :| 0 <= i < |desired| && Key(desired[i]) == h;
    AdjustElements(cfg, raw);
    ExistingAt(desired, hosts);
    assert desired[i] in eps;
    if Answer(cfg, desired[i]).Failure? {
      FailuresSkipped(cfg, eps, desired[i]);
    }
    AddsAll(cfg, eps, desired[i]);
    LegLoses(cfg, env, Stage.Reconciling, m, Repair(cfg, raw, hosts));
  }

  lemma LegsRepairing(cfg: Config, s: Store, x: Inst, seen: Index, env: Env, eps: seq<Endpoint>)
    requires !cfg.dryRun && cfg.coredns && ValidConfig(cfg) && x.phase == Adjusting(seen) && Legs(cfg, s, x)
    ensures Legs(cfg, s, Repairing(cfg, x, seen, env, eps))
  {
    var x' := Repairing(cfg, x, seen, env, eps);
    var change := Repair(cfg, eps, x.recordsHosts);
    LegLoses(cfg, env, Stage.Reconciling, x.rewrites, change);
    forall h | MadeAt(cfg, s, x', h)
      ensures h in x'.rewrites || h in x'.dropped
    {
      assert MadeAt(cfg, s, x, h);
      if h !in x'.rewrites && h in Keys(Adjust(cfg, eps)) && x'.phase.Pruning? {
        KeysMatch(cfg, eps, h);
        RepairAnswers(cfg, env, x.rewrites, eps, x.recordsHosts, h);
      }
    }
    assert forall h :: MadeAt(cfg, s, x', h) ==> MadeAt(cfg, s, x, h);
  }

  lemma KeysMatch(cfg: Config, eps: seq<Endpoint>, h: string)
    requires ValidConfig(cfg) && h in Keys(Adjust(cfg, eps))
    ensures cfg.matches(h)
  {
    AdjustElements(cfg, eps);
    var i :| 0 <= i < |Adjust(cfg, eps)| && Key(Adjust(cfg, eps)[i]) == h;
    KeyIgnoresCase(cfg, Adjust(cfg, eps)[i]);
  }

  /** Prune takes nothing this instance owns on a listed tunnel. */
  lemma PruneSpares(cfg: Config, env: Env, m: Rewrites, ok: bool, owned: set<string>, desired: set<string>, h: string)
    requires h in m && h in owned
    ensures h in PruneLeg(cfg, env, m, ok, owned, desired).after
  {
    SortSetElements(Stale(cfg, m, owned, desired));
  }

  lemma LegsPruned(cfg: Config, s: Store, x: Inst, seen: Index, desired: seq<Endpoint>, env: Env)
    requires x.phase == Phase.Pruning(seen, desired) && Legs(cfg, s, x)
    ensures Legs(cfg, s, Pruned(cfg, x, seen, desired, env))
  {
    var x' := Pruned(cfg, x, seen, desired, env);
    forall h | MadeAt(cfg, s, x', h)
      ensures h in x'.rewrites || h in x'.dropped
    {
      assert MadeAt(cfg, s, x, h);
      if h in x.rewrites {
        PruneSpares(cfg, env, x.rewrites, x.recordsOK, x.ownedHosts, Keys(desired), h);
      }
    }
    assert forall h :: MadeAt(cfg, s, x', h) ==> MadeAt(cfg, s, x, h);
  }

  lemma CreateStaged(cfg: Config, existing: Index, ch: Changes, ep: Endpoint, m: Rewrites)
    requires cfg.coredns && ep in ch.create && forall h :: h in Adds(cfg, ch.create) ==> h in m
    ensures StagedCall(m, DecideCreate(cfg, existing, SkippedFor(cfg, ch), ep))
  {
    if cfg.matches(ep.dns) {
      if Answer(cfg, ep).Failure? {
        FailuresSkipped(cfg, ch.create, ep);
      } else {
        AddsAll(cfg, ch.create, ep);
      }
    }
  }

  lemma DecisionsStaged(cfg: Config, index: Index, existing: Index, ch: Changes, m: Rewrites)
    requires cfg.coredns && forall h :: h in Adds(cfg, ch.create) ==> h in m
    ensures forall d :: d in Decisions(cfg, index, existing, SkippedFor(cfg, ch), ch) ==> StagedCall(m, d)
  {
    OthersNeverCreate(cfg, index, ch);
    OthersNeverAdopt(cfg, index, ch);
    forall i | 0 <= i < |ch.create|
      ensures StagedCall(m, DecideCreates(cfg, existing, SkippedFor(cfg, ch), ch.create)[i])
    {
      CreateStaged(cfg, existing, ch, ch.create[i], m);
    }
  }

  lemma OthersNeverAdopt(cfg: Config, index: Index, ch: Changes)
    ensures forall d :: d in DecideDeletes(cfg, index, ch.delete) + DecideUpdates(cfg, index, ch.update) ==>
      d.Go? ==> !d.call.Adopt?
  {
  }

  lemma LegsWrite(cfg: Config, s: Store, x: Inst, ch: Changes, index: Index, existing: Index, env: Env)
    requires !cfg.dryRun && cfg.coredns && Legs(cfg, s, x)
    ensures Legs(cfg, s, Write(cfg, x, ch, index, existing, env))
  {
    var x', leg := Write(cfg, x, ch, index, existing, env), FragmentLeg(cfg, env, Stage.Applying, x.rewrites, ch);
    LegLoses(cfg, env, Stage.Applying, x.rewrites, ch);
    assert forall h :: MadeAt(cfg, s, x', h) <==> MadeAt(cfg, s, x, h);
    if leg.ok {
      DecisionsStaged(cfg, index, existing, ch, leg.after);
    }
  }

  /** The routes made so far, once this call has been attempted. */
  predicate MadeGrows(s: Store, made: set<nat>, c: Call, reply: Reply, made': set<nat>) {
    made' == made + if reply.Fails? || !Accepts(s, c) then {}
                    else if c.Create? then {s.next} else if c.Adopt? then {c.id} else {}
  }

  lemma MadeElsewhere(cfg: Config, s: Store, x: Inst, c: Call, reply: Reply, made: set<nat>, h: string)
    requires ValidStore(s) && PinnedCall(s, c) && Plain(cfg, s, x) && MadeGrows(s, x.made, c, reply, made)
    requires h != c.host
    requires MadeAt(cfg, Perform(s, c, reply).0, x.(made := made), h)
    ensures MadeAt(cfg, s, x, h) && Perform(s, c, reply).0.live[h] == s.live[h]
  {
    PerformLocal(s, c, reply);
  }

  lemma MadeHere(cfgs: seq<Config>, k: nat, s: Store, x: Inst, index: Index, existing: Index, c: Call, reply: Reply,
    made: set<nat>)
    requires Fleet(cfgs) && k < |cfgs| && ValidStore(s) && Rightful(cfgs, k, s, index, existing, c)
    requires Plain(cfgs[k], s, x) && MadeGrows(s, x.made, c, reply, made) && StagedCall(x.rewrites, Go(c))
    requires MadeAt(cfgs[k], Perform(s, c, reply).0, x.(made := made), c.host)
    ensures Lists(cfgs[k], Perform(s, c, reply).0.live[c.host].tunnel)
    ensures MadeAt(cfgs[k], s, x, c.host) || (c.host in x.rewrites && '*' !in c.host)
  {
    PerformAtHost(s, c, reply);
    if Resolve(cfgs[k].resolver, c.host).Some? {
      ResolvesToConfigured(cfgs[k].resolver, c.host);
    }
    if Hits(s, c) {
      RightfulFinds(cfgs, k, s, index, existing, c);
    }
  }

  /** A call makes only routes whose rewrite is staged, and changes no other route the instance made. */
  lemma LegsAfterCall(cfgs: seq<Config>, k: nat, s: Store, x: Inst, index: Index, existing: Index, c: Call,
    reply: Reply, made: set<nat>)
    requires Fleet(cfgs) && k < |cfgs| && ValidStore(s) && Rightful(cfgs, k, s, index, existing, c)
    requires Answered(cfgs[k], s, x) && Plain(cfgs[k], s, x) && StagedCall(x.rewrites, Go(c))
    requires MadeGrows(s, x.made, c, reply, made)
    ensures Answered(cfgs[k], Perform(s, c, reply).0, x.(made := made))
    ensures Plain(cfgs[k], Perform(s, c, reply).0, x.(made := made))
  {
    var s', x', cfg := Perform(s, c, reply).0, x.(made := made), cfgs[k];
    PerformLocal(s, c, reply);
    MadeIdsDrawn(s, x.made, c, reply, made);
    forall h | MadeAt(cfg, s', x', h)
      ensures '*' !in h && Lists(cfg, s'.live[h].tunnel) && (h in x.rewrites || h in x.dropped)
    {
      if h != c.host {
        MadeElsewhere(cfg, s, x, c, reply, made, h);
      } else {
        MadeHere(cfgs, k, s, x, index, existing, c, reply, made);
      }
    }
  }

  lemma MadeIdsDrawn(s: Store, made: set<nat>, c: Call, reply: Reply, made': set<nat>)
    requires PinnedCall(s, c) && MadeGrows(s, made, c, reply, made') && forall id :: id in made ==> id < s.next
    ensures forall id :: id in made' ==> id < Perform(s, c, reply).0.next
  {
  }

  lemma CalledMakes(cfg: Config, s: Store, x: Inst, index: Index, existing: Index, todo: seq<Decision>,
    known: Option<Index>, env: Env)
    requires todo != [] && !cfg.dryRun
    ensures var (s', x') := Called(cfg, s, x, index, existing, todo, known, env);
      && x'.rewrites == x.rewrites && x'.dropped == x.dropped
      && x'.phase == Calling(index, existing, todo[1..], x'.phase.known)
      && (if todo[0].Go? then
            var c := todo[0].call;
            var reply := env(CallOp(KindOf(c)), c.host);
            s' == Perform(s, c, reply).0 && MadeGrows(s, x.made, c, reply, x'.made)
          else s' == s && x'.made == x.made)
  {
    CalledParts(cfg, s, x, index, existing, todo, known, env);
  }

  lemma LegsCalled(cfgs: seq<Config>, k: nat, s: Store, x: Inst, index: Index, existing: Index, todo: seq<Decision>,
    known: Option<Index>, env: Env)
    requires Fleet(cfgs) && k < |cfgs| && ValidStore(s) && !cfgs[k].dryRun && todo != []
    requires x.phase == Calling(index, existing, todo, known) && Legs(cfgs[k], s, x)
    requires todo[0].Go? ==> Rightful(cfgs, k, s, index, existing, todo[0].call)
    ensures var (s', x') := Called(cfgs[k], s, x, index, existing, todo, known, env); Legs(cfgs[k], s', x')
  {
    var (s', x') := Called(cfgs[k], s, x, index, existing, todo, known, env);
    CalledMakes(cfgs[k], s, x, index, existing, todo, known, env);
    assert StagedCall(x.rewrites, todo[0]);
    if todo[0].Go? {
      var c := todo[0].call;
      LegsAfterCall(cfgs, k, s, x, index, existing, c, env(CallOp(KindOf(c)), c.host), x'.made);
      SameLegs(cfgs[k], s', x.(made := x'.made), x');
    } else {
      SameLegs(cfgs[k], s, x, x');
    }
  }

  lemma SameLegs(cfg: Config, s: Store, x: Inst, x': Inst)
    requires x'.rewrites == x.rewrites && x'.dropped == x.dropped && x'.made == x.made
    requires Answered(cfg, s, x) && Plain(cfg, s, x)
    ensures Answered(cfg, s, x') && Plain(cfg, s, x')
  {
    assert forall h :: MadeAt(cfg, s, x', h) <==> MadeAt(cfg, s, x, h);
  }

  /** Steps that touch neither leg. */
  lemma LegsQuietStep(cfg: Config, s: Store, x: Inst, x': Inst)
    requires Legs(cfg, s, x) && x'.rewrites == x.rewrites && x'.dropped == x.dropped && x'.made == x.made
    requires !x'.phase.Listing? && !x'.phase.Adjusting? && !x'.phase.Pruning? && !x'.phase.Calling?
    ensures Legs(cfg, s, x')
  {
    SameLegs(cfg, s, x, x');
  }

  lemma LegsBegin(cfg: Config, s: Store, x: Inst)
    requires Legs(cfg, s, x)
    ensures Legs(cfg, s, Begin(cfg, x))
  {
    SameLegs(cfg, s, x, Begin(cfg, x));
  }

  /** The first steps of a cycle keep both legs together. */
  lemma LegsEarlyStep(cfg: Config, s: Store, x: Inst, env: Env, eps: seq<Endpoint>, ch: Changes)
    requires ValidConfig(cfg) && !cfg.dryRun && cfg.coredns && Legs(cfg, s, x)
    requires x.phase.Idle? || x.phase.Listing? || x.phase.Adjusting? || x.phase.Pruning?
    ensures NextInst(cfg, s, x, env, eps, ch).0 == s && Legs(cfg, s, NextInst(cfg, s, x, env, eps, ch).1)
  {
    match x.phase
    case Idle => LegsBegin(cfg, s, x);
    case Listing(rest, seen) => LegsListing(cfg, s, x, rest, seen, env);
    case Adjusting(seen) => LegsRepairing(cfg, s, x, seen, env, eps);
    case Pruning(seen, desired) => LegsPruned(cfg, s, x, seen, desired, env);
  }

  /** So does reading the indexes. */
  lemma LegsReading(cfg: Config, s: Store, x: Inst, env: Env, eps: seq<Endpoint>, ch: Changes)
    requires Legs(cfg, s, x) && (x.phase.Indexing? || x.phase.Claiming?)
    ensures NextInst(cfg, s, x, env, eps, ch).0 == s && Legs(cfg, s, NextInst(cfg, s, x, env, eps, ch).1)
  {
    match x.phase
    case Indexing(plan, rest, index) => LegsQuietStep(cfg, s, x, NextIndexing(cfg, s, x, plan, rest, index, env));
    case Claiming(plan, index, rest, existing) =>
      LegsQuietStep(cfg, s, x, NextClaiming(cfg, s, x, plan, index, rest, existing, env));
  }

  /** So do planning and writing the fragment. */
  lemma LegsMiddleStep(cfg: Config, s: Store, x: Inst, env: Env, eps: seq<Endpoint>, ch: Changes)
    requires !cfg.dryRun && cfg.coredns && Legs(cfg, s, x)
    requires x.phase.Planning? || x.phase.Indexing? || x.phase.Claiming? || x.phase.Writing?
    ensures NextInst(cfg, s, x, env, eps, ch).0 == s && Legs(cfg, s, NextInst(cfg, s, x, env, eps, ch).1)
  {
    match x.phase
    case Planning(_, _) => LegsQuietStep(cfg, s, x, Plan(cfg, x, ch));
    case Writing(plan, index, existing) => LegsWrite(cfg, s, x, plan, index, existing, env);
    case _ => LegsReading(cfg, s, x, env, eps, ch);
  }

  /** Every step of the instance keeps both legs together. */
  lemma LegsOwnStep(cfgs: seq<Config>, w: World, l: Label)
    requires Fleet(cfgs) && AllSteady(cfgs, w) && l.i < |cfgs| && l.Act?
    requires !cfgs[l.i].dryRun && cfgs[l.i].coredns && Legs(cfgs[l.i], w.store, w.insts[l.i])
    ensures var (s', x') := NextInst(cfgs[l.i], w.store, w.insts[l.i], l.env, l.eps, l.ch); Legs(cfgs[l.i], s', x')
  {
    var cfg, s, x := cfgs[l.i], w.store, w.insts[l.i];
    if x.phase.Idle? || x.phase.Listing? || x.phase.Adjusting? || x.phase.Pruning? {
      LegsEarlyStep(cfg, s, x, l.env, l.eps, l.ch);
    } else if !x.phase.Calling? {
      LegsMiddleStep(cfg, s, x, l.env, l.eps, l.ch);
    } else if x.phase.todo == [] {
      LegsQuietStep(cfg, s, x, Finish(x));
    } else {
      if x.phase.todo[0].Go? {
        SteadyCallRightful(cfgs, l.i, s, x.phase);
      }
      LegsCalled(cfgs, l.i, s, x, x.phase.index, x.phase.existing, x.phase.todo, x.phase.known, l.env);
    }
  }

  lemma LegsStep(cfgs: seq<Config>, w: World, l: Label, k: nat)
    requires Fleet(cfgs) && NoClash(cfgs) && AllSteady(cfgs, w) && k < |cfgs|
    requires !cfgs[k].dryRun && cfgs[k].coredns && Legs(cfgs[k], w.store, w.insts[k])
    ensures Legs(cfgs[k], Next(cfgs, w, l).store, Next(cfgs, w, l).insts[k])
  {
    if k != l.i {
      LegsUnderOthers(cfgs, w, l, k);
    } else if l.Act? {
      LegsOwnStep(cfgs, w, l);
    } else {
      SameLegs(cfgs[k], w.store, w.insts[k], Restart(w.insts[k]));
    }
  }

  lemma {:induction false} LegsRun(cfgs: seq<Config>, w: World, ls: seq<Label>, k: nat)
    requires Fleet(cfgs) && NoClash(cfgs) && AllSteady(cfgs, w) && k < |cfgs|
    requires !cfgs[k].dryRun && cfgs[k].coredns && Legs(cfgs[k], w.store, w.insts[k])
    ensures Legs(cfgs[k], Run(cfgs, w, ls).store, Run(cfgs, w, ls).insts[k])
    decreases |ls|
  {
    if ls != [] {
      LegsStep(cfgs, w, ls[0], k);
      SteadyStep(cfgs, w, ls[0]);
      LegsRun(cfgs, Next(cfgs, w, ls[0]), ls[1..], k);
    }
  }

  /**
   In every reachable state, whatever has failed, crashed or been interrupted: a live route this instance
   created or adopted has its rewrite in the fragment, or was in a planned Delete that has not landed and
   that no successful AdjustEndpoints has since made good. Every tunnel's routes fit one page.
   */
  lemma BothLegs(cfgs: seq<Config>, w: World, ls: seq<Label>, k: nat)
    requires Fleet(cfgs) && NoClash(cfgs) && WellNumbered(cfgs, w) && Fresh(w) && k < |cfgs|
    requires !cfgs[k].dryRun && cfgs[k].coredns
    ensures Answered(cfgs[k], Run(cfgs, w, ls).store, Run(cfgs, w, ls).insts[k])
  {
    FreshIsSteady(cfgs, w);
    assert FreshInst(w.insts[k]);
    LegsRun(cfgs, w, ls, k);
  }

  /** Whenever prune may act, it knows every route of this owner on a listed tunnel; each fits one page. */
  lemma PruneSeesAll(cfgs: seq<Config>, w: World, ls: seq<Label>, k: nat)
    requires Fleet(cfgs) && NoClash(cfgs) && WellNumbered(cfgs, w) && Fresh(w) && k < |cfgs|
    requires !cfgs[k].dryRun && cfgs[k].coredns && Run(cfgs, w, ls).insts[k].phase.Pruning?
    ensures var w' := Run(cfgs, w, ls);
      forall h :: OwnedAt(cfgs[k], w'.store, h) && Lists(cfgs[k], w'.store.live[h].tunnel) ==>
        h in w'.insts[k].ownedHosts
  {
    FreshIsSteady(cfgs, w);
    assert FreshInst(w.insts[k]);
    LegsRun(cfgs, w, ls, k);
  }

  // When a rewrite goes.

  lemma LegLosesAtMost(cfg: Config, env: Env, stage: Stage, m: Rewrites, ch: Changes, h: string)
    requires h in m && h !in FragmentLeg(cfg, env, stage, m, ch).after
    ensures h in Removes(cfg, ch.delete)
  {
    EditLoses(env, stage, m, Adds(cfg, ch.create), Removes(cfg, ch.delete));
  }

  /** The repair of AdjustEndpoints takes no rewrite away. */
  lemma RepairKeeps(cfg: Config, x: Inst, seen: Index, env: Env, eps: seq<Endpoint>, h: string)
    requires h in x.rewrites
    ensures h in Repairing(cfg, x, seen, env, eps).rewrites
  {
    var change := Repair(cfg, eps, x.recordsHosts);
    assert Removes(cfg, change.delete) == [];
    if h !in Repairing(cfg, x, seen, env, eps).rewrites {
      LegLosesAtMost(cfg, env, Stage.Reconciling, x.rewrites, change, h);
    }
  }

  /** Prune takes only what nobody owns or wants, of what this instance was configured to manage. */
  lemma PruneTakesStale(cfg: Config, env: Env, m: Rewrites, ok: bool, owned: set<string>, desired: set<string>,
    h: string)
    requires h in m && h !in PruneLeg(cfg, env, m, ok, owned, desired).after
    ensures ok && h in Stale(cfg, m, owned, desired)
  {
    SortSetElements(Stale(cfg, m, owned, desired));
  }

  lemma QuietKeepsRewrites(cfg: Config, s: Store, x: Inst, env: Env, eps: seq<Endpoint>, ch: Changes)
    requires !x.phase.Adjusting? && !x.phase.Pruning? && !x.phase.Writing?
    ensures NextInst(cfg, s, x, env, eps, ch).1.rewrites == x.rewrites
  {
    match x.phase
    case Idle =>
    case Listing(_, _) =>
    case Planning(_, _) =>
    case Indexing(_, _, _) =>
    case Claiming(_, _, _, _) =>
    case Calling(_, _, _, _) =>
  }

  /**
   A rewrite goes from the fragment in two ways only: by a planned Delete inside the filter, and then it
   is on record as taken away; or by prune, on a complete view, when nothing owns or wants the host.
   */
  lemma RewriteGoes(cfg: Config, s: Store, x: Inst, env: Env, eps: seq<Endpoint>, ch: Changes, h: string)
    requires h in x.rewrites && h !in NextInst(cfg, s, x, env, eps, ch).1.rewrites
    ensures x.phase.Writing? || x.phase.Pruning?
    ensures x.phase.Writing? ==>
      h in Removes(cfg, x.phase.ch.delete) && h in NextInst(cfg, s, x, env, eps, ch).1.dropped
    ensures x.phase.Pruning? ==>
      x.recordsOK && h in Stale(cfg, x.rewrites, x.ownedHosts, Keys(x.phase.desired))
  {
    match x.phase
    case Adjusting(seen) => RepairKeeps(cfg, x, seen, env, eps, h);
    case Pruning(_, desired) => PruneTakesStale(cfg, env, x.rewrites, x.recordsOK, x.ownedHosts, Keys(desired), h);
    case Writing(plan, _, _) => LegLosesAtMost(cfg, env, Stage.Applying, x.rewrites, plan, h);
    case _ => QuietKeepsRewrites(cfg, s, x, env, eps, ch);
  }

  /** Prune takes no rewrite that is desired. */
  lemma PruneKeepsDesired(cfg: Config, env: Env, m: Rewrites, ok: bool, owned: set<string>, desired: set<string>,
    h: string)
    requires h in m && h in desired
    ensures h in PruneLeg(cfg, env, m, ok, owned, desired).after
  {
    SortSetElements(Stale(cfg, m, owned, desired));
  }

  lemma RepairStep(cfg: Config, x: Inst, seen: Index, env: Env, eps: seq<Endpoint>)
    requires Repairing(cfg, x, seen, env, eps).phase.Pruning?
    ensures SkippedFor(cfg, Repair(cfg, eps, x.recordsHosts)) == map[]
    ensures FragmentLeg(cfg, env, Stage.Reconciling, x.rewrites, Repair(cfg, eps, x.recordsHosts)).ok
    ensures Repairing(cfg, x, seen, env, eps).rewrites ==
      FragmentLeg(cfg, env, Stage.Reconciling, x.rewrites, Repair(cfg, eps, x.recordsHosts)).after
    ensures Repairing(cfg, x, seen, env, eps).dropped == x.dropped - Keys(Adjust(cfg, eps))
    ensures Repairing(cfg, x, seen, env, eps).phase.desired == Adjust(cfg, eps)
  {
  }

  /**
   After a successful AdjustEndpoints, and through the prune that follows it, every host it wants that
   Records reported has its rewrite in the fragment; so forgetting that a Delete once took it is right.
   */
  lemma AdjustAnswers(cfg: Config, s: Store, x: Inst, env: Env, eps: seq<Endpoint>, ch: Changes, h: string,
    env2: Env, eps2: seq<Endpoint>, ch2: Changes)
    requires !cfg.dryRun && cfg.coredns && x.phase.Adjusting? && NextInst(cfg, s, x, env, eps, ch).1.phase.Pruning?
    requires h in Keys(Adjust(cfg, eps)) && h in x.recordsHosts && '*' !in h
    ensures var y := NextInst(cfg, s, x, env, eps, ch).1;
      h in y.rewrites && h !in y.dropped && h in NextInst(cfg, s, y, env2, eps2, ch2).1.rewrites
  {
    var y := Repairing(cfg, x, x.phase.seen, env, eps);
    RepairStep(cfg, x, x.phase.seen, env, eps);
    RepairAnswers(cfg, env, x.rewrites, eps, x.recordsHosts, h);
    PruneKeepsDesired(cfg, env2, y.rewrites, y.recordsOK, y.ownedHosts, Keys(y.phase.desired), h);
  }
}
