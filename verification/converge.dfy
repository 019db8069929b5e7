/**
 Strict instances that want different names reach them together, whoever holds what at first: in any
 order, through any failures, once each instance has completed a cycle nobody owns a name it does not
 want, and once each has completed another every wanted name is routed by the instance that wants it.
 */
module Converge {
  import opened Wrappers
  import opened Text
  import opened FragmentCodec
  import opened Resolver
  import opened Routes
  import opened Reconcile
  import opened PerHost
  import opened ProviderEngine
  import opened Stabilise
  import opened Protocol
  import opened Safety
  import opened Solo

  /** What instance i wants, canonical and in its filter. */
  function Desired(cfgs: seq<Config>, demand: seq<seq<Endpoint>>, i: nat): seq<Endpoint>
    requires i < |cfgs| == |demand|
  {
    Adjust(cfgs[i], demand[i])
  }

  /** Strict instances acting for real, each wanting names no other wants. */
  ghost predicate Cooperative(cfgs: seq<Config>, demand: seq<seq<Endpoint>>) {
    && Fleet(cfgs) && |demand| == |cfgs|
    && (forall i :: 0 <= i < |cfgs| ==> cfgs[i].strict && !cfgs[i].adopt && !cfgs[i].dryRun)
    && (forall i :: 0 <= i < |cfgs| ==> DistinctKeys(Desired(cfgs, demand, i)))
    && (forall i, j, h :: 0 <= i < |cfgs| && 0 <= j < |cfgs| && i != j && HasKey(Desired(cfgs, demand, i), h) ==>
          !HasKey(Desired(cfgs, demand, j), h))
  }

  /** The instance is given its own demand, and a plan under the sync policy for what it has seen. */
  ghost predicate Lawful(cfgs: seq<Config>, demand: seq<seq<Endpoint>>, w: World, l: Label)
    requires WellNumbered(cfgs, w) && |demand| == |cfgs|
  {
    l.Act? && l.i < |cfgs| ==>
      match w.insts[l.i].phase
      case Adjusting(_) => l.eps == demand[l.i]
      case Planning(seen, desired) => IsPlanOf(cfgs[l.i], seen, desired, l.ch)
      case _ => true
  }

  ghost predicate LawfulRun(cfgs: seq<Config>, demand: seq<seq<Endpoint>>, w: World, ls: seq<Label>)
    requires WellNumbered(cfgs, w) && |demand| == |cfgs|
    decreases |ls|
  {
    ls == [] || (Lawful(cfgs, demand, w, ls[0]) && LawfulRun(cfgs, demand, Next(cfgs, w, ls[0]), ls[1..]))
  }

  /** The instance owns the host's route on a tunnel it lists, inside its filter. */
  predicate Wields(cfg: Config, s: Store, h: string) {
    OwnedAt(cfg, s, h) && Lists(cfg, s.live[h].tunnel) && cfg.matches(h)
  }

  /** Every live route is some instance's to give up. */
  ghost predicate AllHeld(cfgs: seq<Config>, s: Store) {
    forall h :: h in s.live ==> exists i :: 0 <= i < |cfgs| && Wields(cfgs[i], s, h)
  }

  // What a strict instance knows.

  function Done(cfg: Config, rest: seq<string>): seq<string>
    requires |rest| <= |Tunnels(cfg.resolver)|
  {
    Tunnels(cfg.resolver)[..|Tunnels(cfg.resolver)| - |rest|]
  }

  /** The calls left to make: deletes of undesired names, creates and moves of desired ones, one per name. */
  ghost predicate Orderly(desired: seq<Endpoint>, todo: seq<Decision>) {
    OneEach(todo) && forall d :: d in todo ==> InOrder(desired, d)
  }

  ghost predicate InOrder(desired: seq<Endpoint>, d: Decision) {
    d.Go? ==> !d.call.Adopt? && (d.call.Delete? <==> !HasKey(desired, d.call.host))
  }

  /** What a strict instance has read is, until it begins its calls, exactly what is so. */
  ghost predicate Informed(cfg: Config, s: Store, desired: seq<Endpoint>, p: Phase) {
    match p
    case Idle => true
    case Listing(rest, seen) => Suffix(rest, Tunnels(cfg.resolver)) && seen == Selected(cfg, Own, s, Done(cfg, rest))
    case Adjusting(seen) => seen == OwnedIndex(cfg, s)
    case Pruning(seen, wanted) => seen == OwnedIndex(cfg, s) && wanted == desired
    case Planning(seen, wanted) => seen == OwnedIndex(cfg, s) && wanted == desired
    case Indexing(ch, rest, index) =>
      && IsPlan(cfg, s, desired, ch) && Suffix(rest, Tunnels(cfg.resolver))
      && (if NeedsIndex(ch) then index == Selected(cfg, Own, s, Done(cfg, rest)) else rest == [] && index == map[])
    case Claiming(ch, index, rest, existing) =>
      IsPlan(cfg, s, desired, ch) && index == IndexFor(cfg, s, ch) && rest == [] && existing == map[]
    case Writing(ch, index, existing) =>
      IsPlan(cfg, s, desired, ch) && index == IndexFor(cfg, s, ch) && existing == map[]
    case Calling(_, _, todo, _) => Orderly(desired, todo)
  }

  /** The instance sees the same routes of its own in both. */
  ghost predicate SameView(cfg: Config, s: Store, s': Store) {
    forall ts :: Selected(cfg, Own, s', ts) == Selected(cfg, Own, s, ts)
  }

  lemma InformedKept(cfg: Config, s: Store, s': Store, desired: seq<Endpoint>, p: Phase)
    requires Informed(cfg, s, desired, p) && SameView(cfg, s, s')
    ensures Informed(cfg, s', desired, p)
  {
    assert OwnedIndex(cfg, s') == OwnedIndex(cfg, s);
  }

  lemma DoneNext(cfg: Config, rest: seq<string>)
    requires Suffix(rest, Tunnels(cfg.resolver))
    ensures rest == [] ==> Done(cfg, rest) == Tunnels(cfg.resolver)
    ensures rest != [] ==>
      Suffix(rest[1..], Tunnels(cfg.resolver)) && Done(cfg, rest[1..]) == Done(cfg, rest) + [rest[0]]
  {
  }

  lemma InformedListing(cfg: Config, s: Store, x: Inst, desired: seq<Endpoint>, rest: seq<string>, seen: Index,
    env: Env)
    requires Informed(cfg, s, desired, Listing(rest, seen))
    ensures Informed(cfg, s, desired, NextListing(cfg, s, x, rest, seen, env).phase)
  {
    DoneNext(cfg, rest);
    if rest != [] {
      SelectedGrows(cfg, Own, s, Done(cfg, rest), rest[0]);
    }
  }

  lemma InformedIndexing(cfg: Config, s: Store, x: Inst, desired: seq<Endpoint>, ch: Changes, rest: seq<string>,
    index: Index, env: Env)
    requires Informed(cfg, s, desired, Indexing(ch, rest, index)) && !cfg.adopt
    ensures Informed(cfg, s, desired, NextIndexing(cfg, s, x, ch, rest, index, env).phase)
  {
    DoneNext(cfg, rest);
    if rest != [] {
      SelectedGrows(cfg, Own, s, Done(cfg, rest), rest[0]);
    }
  }

  lemma InformedPlan(cfg: Config, s: Store, x: Inst, desired: seq<Endpoint>, ch: Changes)
    requires IsPlan(cfg, s, desired, ch)
    ensures Informed(cfg, s, desired, Plan(cfg, x, ch).phase)
  {
    SelectedNone(cfg, Own, s);
    assert Done(cfg, Tunnels(cfg.resolver)) == [];
  }

  lemma PlanIsOrderly(cfg: Config, s: Store, desired: seq<Endpoint>, ch: Changes)
    requires IsPlan(cfg, s, desired, ch) && !cfg.adopt
    ensures Orderly(desired, DecisionsFor(cfg, s, ch))
  {
    var index, skipped := IndexFor(cfg, s, ch), SkippedFor(cfg, ch);
    DecisionHosts(cfg, index, ExistingFor(cfg, s, ch), skipped, ch);
    forall i | 0 <= i < |ch.delete|
      ensures InOrder(desired, DecideDelete(cfg, index, ch.delete[i]))
    {
      assert HasKey(ch.delete, Key(ch.delete[i]));
    }
    forall i | 0 <= i < |ch.update|
      ensures InOrder(desired, DecideUpdate(cfg, index, ch.update[i]))
    {
      assert HasKey(ch.update, Key(ch.update[i]));
    }
    forall i | 0 <= i < |ch.create|
      ensures InOrder(desired, DecideCreate(cfg, map[], skipped, ch.create[i]))
    {
      assert HasKey(ch.create, Key(ch.create[i]));
    }
    EachInOrder(desired, DecideDeletes(cfg, index, ch.delete));
    EachInOrder(desired, DecideUpdates(cfg, index, ch.update));
    EachInOrder(desired, DecideCreates(cfg, map[], skipped, ch.create));
  }

  lemma EachInOrder(desired: seq<Endpoint>, ds: seq<Decision>)
    requires forall i :: 0 <= i < |ds| ==> InOrder(desired, ds[i])
    ensures forall d :: d in ds ==> InOrder(desired, d)
  {
  }

  lemma OrderlyRest(desired: seq<Endpoint>, todo: seq<Decision>)
    requires Orderly(desired, todo) && todo != []
    ensures Orderly(desired, todo[1..])
    ensures todo[0].Go? ==> forall d :: d in todo[1..] ==> !ForHost(d, todo[0].call.host)
  {
    forall d | d in todo[1..]
      ensures d in todo && (todo[0].Go? ==> !ForHost(d, todo[0].call.host))
    {
      var j :| 0 <= j < |todo| - 1 && todo[1..][j] == d;
      assert todo[j + 1] == d;
    }
  }

  lemma InformedWriting(cfg: Config, s: Store, x: Inst, desired: seq<Endpoint>, ch: Changes, index: Index,
    existing: Index, env: Env)
    requires Informed(cfg, s, desired, Writing(ch, index, existing)) && !cfg.adopt
    ensures Informed(cfg, s, desired, Write(cfg, x, ch, index, existing, env).phase)
  {
    PlanIsOrderly(cfg, s, desired, ch);
  }

  lemma InformedEarly(cfg: Config, s: Store, x: Inst, raw: seq<Endpoint>, env: Env, eps: seq<Endpoint>, ch: Changes)
    requires Informed(cfg, s, Adjust(cfg, raw), x.phase) && (x.phase.Adjusting? ==> eps == raw)
    requires x.phase.Idle? || x.phase.Listing? || x.phase.Adjusting? || x.phase.Pruning?
    ensures NextInst(cfg, s, x, env, eps, ch).0 == s
    ensures Informed(cfg, s, Adjust(cfg, raw), NextInst(cfg, s, x, env, eps, ch).1.phase)
  {
    match x.phase
    case Idle =>
      SelectedNone(cfg, Own, s);
      assert Done(cfg, Tunnels(cfg.resolver)) == [];
    case Listing(rest, seen) => InformedListing(cfg, s, x, Adjust(cfg, raw), rest, seen, env);
    case Adjusting(_) =>
    case Pruning(_, _) =>
  }

  lemma InformedMiddle(cfg: Config, s: Store, x: Inst, desired: seq<Endpoint>, env: Env, eps: seq<Endpoint>,
    ch: Changes)
    requires !cfg.adopt && Informed(cfg, s, desired, x.phase) && (x.phase.Planning? ==> IsPlan(cfg, s, desired, ch))
    requires x.phase.Planning? || x.phase.Indexing? || x.phase.Claiming? || x.phase.Writing?
    ensures NextInst(cfg, s, x, env, eps, ch).0 == s
    ensures Informed(cfg, s, desired, NextInst(cfg, s, x, env, eps, ch).1.phase)
  {
    match x.phase
    case Planning(_, _) => InformedPlan(cfg, s, x, desired, ch);
    case Indexing(plan, rest, index) => InformedIndexing(cfg, s, x, desired, plan, rest, index, env);
    case Claiming(_, _, _, _) =>
    case Writing(plan, index, existing) => InformedWriting(cfg, s, x, desired, plan, index, existing, env);
  }

  /** Its own steps keep a strict instance informed. */
  lemma InformedOwnStep(cfg: Config, s: Store, x: Inst, raw: seq<Endpoint>, env: Env, eps: seq<Endpoint>, ch: Changes)
    requires !cfg.adopt && Informed(cfg, s, Adjust(cfg, raw), x.phase)
    requires x.phase.Adjusting? ==> eps == raw
    requires x.phase.Planning? ==> IsPlan(cfg, s, Adjust(cfg, raw), ch)
    ensures var (s', x') := NextInst(cfg, s, x, env, eps, ch); Informed(cfg, s', Adjust(cfg, raw), x'.phase)
  {
    if x.phase.Idle? || x.phase.Listing? || x.phase.Adjusting? || x.phase.Pruning? {
      InformedEarly(cfg, s, x, raw, env, eps, ch);
    } else if !x.phase.Calling? {
      InformedMiddle(cfg, s, x, Adjust(cfg, raw), env, eps, ch);
    } else if x.phase.todo != [] {
      CalledParts(cfg, s, x, x.phase.index, x.phase.existing, x.phase.todo, x.phase.known, env);
      OrderlyRest(Adjust(cfg, raw), x.phase.todo);
    }
  }

  // What a cycle without errors still has to do.

  /** Every undesired route the instance owns is still to be deleted. */
  ghost predicate CoversUndesired(cfg: Config, s: Store, desired: seq<Endpoint>, todo: seq<Decision>) {
    forall h :: OwnedAt(cfg, s, h) && !HasKey(desired, h) ==> Go(Delete(h, s.live[h].id)) in todo
  }

  /** The desired host is routed by its instance on the tunnel it resolves to. */
  predicate Placed(cfg: Config, s: Store, ep: Endpoint) {
    OwnedAt(cfg, s, Key(ep)) && Resolve(cfg.resolver, ep.dns) == Some(s.live[Key(ep)].tunnel)
  }

  ghost predicate AllPlaced(cfg: Config, s: Store, desired: seq<Endpoint>) {
    forall ep :: ep in desired ==> Placed(cfg, s, ep)
  }

  /** A call that would place the host: a create of a free name, or a move of the instance's own route. */
  predicate WouldPlace(cfg: Config, s: Store, h: string, d: Decision) {
    && d.Go? && d.call.host == h
    && if d.call.Create? then h !in s.live else d.call.Retarget? && OwnedAt(cfg, s, h) && s.live[h].id == d.call.id
  }

  ghost predicate Placing(cfg: Config, s: Store, ep: Endpoint, todo: seq<Decision>) {
    Placed(cfg, s, ep) || exists d :: d in todo && WouldPlace(cfg, s, Key(ep), d)
  }

  /** Every desired host is placed, or about to be. */
  ghost predicate CoversDesired(cfg: Config, s: Store, desired: seq<Endpoint>, todo: seq<Decision>) {
    forall ep :: ep in desired ==> Placing(cfg, s, ep, todo)
  }

  /** The instance owns no route it does not want. */
  ghost predicate Clean(cfg: Config, s: Store, desired: seq<Endpoint>) {
    forall h :: OwnedAt(cfg, s, h) ==> HasKey(desired, h)
  }

  /** Every route of this instance is one it wields. */
  ghost predicate WieldsOwned(cfg: Config, s: Store) {
    forall h :: OwnedAt(cfg, s, h) ==> Wields(cfg, s, h)
  }

  lemma StrictReports(cfg: Config, s: Store, h: string)
    requires cfg.strict && WieldsOwned(cfg, s)
    ensures InReport(cfg, OwnedIndex(cfg, s), h) <==> OwnedAt(cfg, s, h)
  {
  }

  lemma PlanCoversUndesired(cfg: Config, s: Store, desired: seq<Endpoint>, ch: Changes)
    requires ValidConfig(cfg) && cfg.strict && WieldsOwned(cfg, s) && IsPlan(cfg, s, desired, ch)
    ensures CoversUndesired(cfg, s, desired, DecisionsFor(cfg, s, ch))
  {
    var ds := DecisionsFor(cfg, s, ch);
    DecisionsAt(cfg, s, ch);
    forall h | OwnedAt(cfg, s, h) && !HasKey(desired, h)
      ensures Go(Delete(h, s.live[h].id)) in ds
    {
      StrictReports(cfg, s, h);
      assert HasKey(ch.delete, h);
      var i :| 0 <= i < |ch.delete| && Key(ch.delete[i]) == h;
      KeyIgnoresCase(cfg, ch.delete[i]);
      assert ds[i] == Go(Delete(h, s.live[h].id));
    }
  }

  lemma EmptyPlanIsClean(cfg: Config, s: Store, desired: seq<Endpoint>, ch: Changes)
    requires cfg.strict && WieldsOwned(cfg, s) && IsPlan(cfg, s, desired, ch) && IsEmptyPlan(ch)
    ensures Clean(cfg, s, desired)
  {
    forall h | OwnedAt(cfg, s, h)
      ensures HasKey(desired, h)
    {
      StrictReports(cfg, s, h);
      assert !HasKey(ch.delete, h);
    }
  }

  /** Names others do not hold are the instance's own or free. */
  ghost predicate NobodyElse(cfg: Config, s: Store, desired: seq<Endpoint>) {
    forall h :: HasKey(desired, h) && h in s.live ==> OwnedAt(cfg, s, h)
  }

  /** An owned host that is not where it is wanted has an update planned. */
  lemma MisplacedIsUpdated(cfg: Config, s: Store, desired: seq<Endpoint>, ch: Changes, ep: Endpoint)
    requires cfg.strict && WieldsOwned(cfg, s) && IsPlan(cfg, s, desired, ch)
    requires ep in desired && OwnedAt(cfg, s, Key(ep)) && !Placed(cfg, s, ep) && Resolve(cfg.resolver, ep.dns).Some?
    requires ep.target == Target(Resolve(cfg.resolver, ep.dns).value)
    ensures HasKey(ch.update, Key(ep))
  {
    StrictReports(cfg, s, Key(ep));
    if Target(s.live[Key(ep)].tunnel) == ep.target {
      TargetInjective(s.live[Key(ep)].tunnel, Resolve(cfg.resolver, ep.dns).value);
    }
  }

  /** An update of an owned host that is not where its domain resolves to moves it. */
  lemma UpdateWouldPlace(cfg: Config, s: Store, index: Index, up: Endpoint, h: string)
    requires ValidConfig(cfg) && Key(up) == h && OwnedAt(cfg, s, h) && cfg.matches(h)
    requires h in index && index[h] == s.live[h]
    requires Resolve(cfg.resolver, h).Some? && Resolve(cfg.resolver, h).value != s.live[h].tunnel
    ensures WouldPlace(cfg, s, h, DecideUpdate(cfg, index, up))
  {
    KeyIgnoresCase(cfg, up);
  }

  lemma PlanMoves(cfg: Config, s: Store, desired: seq<Endpoint>, ch: Changes, ep: Endpoint)
    requires ValidConfig(cfg) && cfg.strict && WieldsOwned(cfg, s) && IsPlan(cfg, s, desired, ch)
    requires ep in desired && OwnedAt(cfg, s, Key(ep)) && Resolve(cfg.resolver, ep.dns).Some?
    requires ep.target == Target(Resolve(cfg.resolver, ep.dns).value)
    ensures Placed(cfg, s, ep) || exists d :: d in DecisionsFor(cfg, s, ch) && WouldPlace(cfg, s, Key(ep), d)
  {
    if !Placed(cfg, s, ep) {
      var h, ds := Key(ep), DecisionsFor(cfg, s, ch);
      MisplacedIsUpdated(cfg, s, desired, ch, ep);
      var i :| 0 <= i < |ch.update| && Key(ch.update[i]) == h;
      KeyIgnoresCase(cfg, ep);
      UpdateWouldPlace(cfg, s, IndexFor(cfg, s, ch), ch.update[i], h);
      DecisionsAt(cfg, s, ch);
      assert ds[|ch.delete| + i] == DecideUpdate(cfg, IndexFor(cfg, s, ch), ch.update[i]);
    }
  }

  lemma CreateWouldPlace(cfg: Config, s: Store, ep: Endpoint)
    requires cfg.matches(ep.dns) && Resolve(cfg.resolver, ep.dns).Some? && Key(ep) !in s.live
    ensures WouldPlace(cfg, s, Key(ep), DecideCreate(cfg, map[], map[], ep))
  {
  }

  lemma PlanCreates(cfg: Config, s: Store, desired: seq<Endpoint>, ch: Changes, ep: Endpoint)
    requires ValidConfig(cfg) && IsPlan(cfg, s, desired, ch) && SkippedFor(cfg, ch) == map[] && !cfg.adopt
    requires ep in desired && Key(ep) !in s.live && cfg.matches(ep.dns) && Resolve(cfg.resolver, ep.dns).Some?
    ensures exists d :: d in DecisionsFor(cfg, s, ch) && WouldPlace(cfg, s, Key(ep), d)
  {
    KeysAre(desired);
    assert HasKey(ch.create, Key(ep));
    var i :| 0 <= i < |ch.create| && Key(ch.create[i]) == Key(ep);
    KeyIgnoresCase(cfg, ep);
    KeyIgnoresCase(cfg, ch.create[i]);
    CreateWouldPlace(cfg, s, ch.create[i]);
    DecisionsAt(cfg, s, ch);
    assert DecisionsFor(cfg, s, ch)[|ch.delete| + |ch.update| + i] == DecideCreate(cfg, map[], map[], ch.create[i]);
  }

  /** With nobody else holding a wanted name, an answerable plan places every one of them. */
  lemma PlanCoversDesired(cfg: Config, s: Store, raw: seq<Endpoint>, ch: Changes)
    requires ValidConfig(cfg) && cfg.strict && !cfg.adopt && WieldsOwned(cfg, s) && NobodyElse(cfg, s, Adjust(cfg, raw))
    requires IsPlan(cfg, s, Adjust(cfg, raw), ch) && SkippedFor(cfg, ch) == map[]
    ensures CoversDesired(cfg, s, Adjust(cfg, raw), DecisionsFor(cfg, s, ch))
  {
    AdjustElements(cfg, raw);
    KeysAre(Adjust(cfg, raw));
    forall ep | ep in Adjust(cfg, raw)
      ensures Placing(cfg, s, ep, DecisionsFor(cfg, s, ch))
    {
      if Key(ep) in s.live {
        PlanMoves(cfg, s, Adjust(cfg, raw), ch, ep);
      } else {
        PlanCreates(cfg, s, Adjust(cfg, raw), ch, ep);
      }
    }
  }

  lemma EmptyPlanIsPlaced(cfg: Config, s: Store, raw: seq<Endpoint>, ch: Changes)
    requires ValidConfig(cfg) && cfg.strict && !cfg.adopt && WieldsOwned(cfg, s) && NobodyElse(cfg, s, Adjust(cfg, raw))
    requires IsPlan(cfg, s, Adjust(cfg, raw), ch) && IsEmptyPlan(ch)
    ensures AllPlaced(cfg, s, Adjust(cfg, raw))
  {
    PlanCoversDesired(cfg, s, raw, ch);
    assert DecisionsFor(cfg, s, ch) == [];
    assert forall ep :: ep in Adjust(cfg, raw) ==> Placing(cfg, s, ep, []);
  }

  // What a call without error leaves to do.

  /** The decision is carried out without an error; a refusal as already routed is none. */
  predicate Smooth(s: Store, d: Decision, env: Env) {
    match d
    case Skip => true
    case Bad(_) => false
    case Go(c) => !Perform(s, c, env(CallOp(KindOf(c)), c.host)).1.Failed?
  }

  function AfterDecision(s: Store, d: Decision, env: Env): Store {
    if d.Go? then Perform(s, d.call, env(CallOp(KindOf(d.call)), d.call.host)).0 else s
  }

  lemma SmoothWhenNoError(cfg: Config, s: Store, x: Inst, d: Decision, known: Option<Index>, env: Env)
    requires !cfg.dryRun
    ensures Attempted(cfg, s, x, d, known, env).errs == [] <==> Smooth(s, d, env)
    ensures Attempted(cfg, s, x, d, known, env).store == AfterDecision(s, d, env)
  {
  }

  lemma UndesiredAfterCall(cfg: Config, s: Store, desired: seq<Endpoint>, todo: seq<Decision>, env: Env)
    requires ValidStore(s) && todo != [] && Orderly(desired, todo) && CoversUndesired(cfg, s, desired, todo)
    requires PinnedDecision(s, todo[0]) && Smooth(s, todo[0], env)
    ensures CoversUndesired(cfg, AfterDecision(s, todo[0], env), desired, todo[1..])
  {
    var s' := AfterDecision(s, todo[0], env);
    forall h | OwnedAt(cfg, s', h) && !HasKey(desired, h)
      ensures Go(Delete(h, s'.live[h].id)) in todo[1..]
    {
      if todo[0].Go? {
        var c := todo[0].call;
        assert InOrder(desired, todo[0]);
        PerformLocal(s, c, env(CallOp(KindOf(c)), c.host));
        PerformAtHost(s, c, env(CallOp(KindOf(c)), c.host));
      }
    }
  }

  /** What a strict instance's call needs to be: decided from what it read, within its grip. */
  ghost predicate OwnCall(cfgs: seq<Config>, i: nat, s: Store, index: Index, desired: seq<Endpoint>, c: Call)
    requires i < |cfgs|
  {
    && Fleet(cfgs) && cfgs[i].strict && !cfgs[i].adopt && ValidStore(s)
    && Rightful(cfgs, i, s, index, map[], c) && InOrder(desired, Go(c))
  }

  /** A move of an instance's own route leaves it the owner's, on the tunnel its name resolves to. */
  lemma MovePlaces(cfgs: seq<Config>, i: nat, s: Store, index: Index, desired: seq<Endpoint>, c: Call, reply: Reply)
    requires i < |cfgs| && OwnCall(cfgs, i, s, index, desired, c) && c.Retarget? && Hits(s, c)
    ensures var s' := Perform(s, c, reply).0;
      OwnedAt(cfgs[i], s', c.host) &&
        (!reply.Fails? ==> Some(s'.live[c.host].tunnel) == Resolve(cfgs[i].resolver, c.host))
  {
    NoComment();
    RightfulFinds(cfgs, i, s, index, map[], c);
    ResolvesToConfigured(cfgs[i].resolver, c.host);
    PerformAtHost(s, c, reply);
  }

  lemma CreatePlaces(cfgs: seq<Config>, i: nat, s: Store, index: Index, desired: seq<Endpoint>, c: Call, reply: Reply)
    requires i < |cfgs| && OwnCall(cfgs, i, s, index, desired, c) && c.Create? && c.host !in s.live
    ensures var s' := Perform(s, c, reply).0;
      !reply.Fails? ==>
        OwnedAt(cfgs[i], s', c.host) && Some(s'.live[c.host].tunnel) == Resolve(cfgs[i].resolver, c.host)
  {
    PerformAtHost(s, c, reply);
  }

  /** An instance's own calls never displace what it wants. */
  lemma PlacedAfterOwnCall(cfgs: seq<Config>, i: nat, s: Store, index: Index, desired: seq<Endpoint>, c: Call,
    reply: Reply, ep: Endpoint)
    requires i < |cfgs| && OwnCall(cfgs, i, s, index, desired, c) && HasKey(desired, Key(ep)) && Placed(cfgs[i], s, ep)
    ensures Placed(cfgs[i], Perform(s, c, reply).0, ep)
  {
    PerformLocal(s, c, reply);
    PerformAtHost(s, c, reply);
    KeyIgnoresCase(cfgs[i], ep);
    if c.host == Key(ep) && c.Retarget? && Hits(s, c) {
      MovePlaces(cfgs, i, s, index, desired, c, reply);
    }
  }

  lemma PlacingAfterCall(cfgs: seq<Config>, i: nat, s: Store, index: Index, desired: seq<Endpoint>, todo: seq<Decision>,
    env: Env, ep: Endpoint)
    requires i < |cfgs| && todo != [] && todo[0].Go? && OwnCall(cfgs, i, s, index, desired, todo[0].call)
    requires Orderly(desired, todo) && Smooth(s, todo[0], env)
    requires HasKey(desired, Key(ep)) && Placing(cfgs[i], s, ep, todo)
    ensures Placing(cfgs[i], AfterDecision(s, todo[0], env), ep, todo[1..])
  {
    var c, cfg, h := todo[0].call, cfgs[i], Key(ep);
    var reply := env(CallOp(KindOf(c)), c.host);
    if Placed(cfg, s, ep) {
      PlacedAfterOwnCall(cfgs, i, s, index, desired, c, reply, ep);
    } else {
      var d :| d in todo && WouldPlace(cfg, s, h, d);
      OrderlyRest(desired, todo);
      PerformLocal(s, c, reply);
      if c.host == h {
        assert d == todo[0];
        KeyIgnoresCase(cfg, ep);
        PerformAtHost(s, c, reply);
        if c.Create? {
          CreatePlaces(cfgs, i, s, index, desired, c, reply);
        } else {
          MovePlaces(cfgs, i, s, index, desired, c, reply);
        }
      } else {
        assert d in todo[1..];
        assert WouldPlace(cfg, AfterDecision(s, todo[0], env), h, d);
      }
    }
  }

  // Every run.

  /** What holds of each instance in every reachable state. */
  ghost predicate GoodInst(cfg: Config, s: Store, desired: seq<Endpoint>, x: Inst) {
    && Informed(cfg, s, desired, x.phase) && x.lastGood <= x.started
    && (x.phase.Calling? && x.faultless ==> CoversUndesired(cfg, s, desired, x.phase.todo))
    && (x.lastGood > 0 ==> Clean(cfg, s, desired))
  }

  ghost predicate Good(cfgs: seq<Config>, demand: seq<seq<Endpoint>>, w: World) {
    && Cooperative(cfgs, demand) && AllSteady(cfgs, w) && AllHeld(cfgs, w.store)
    && forall i :: 0 <= i < |cfgs| ==> GoodInst(cfgs[i], w.store, Desired(cfgs, demand, i), w.insts[i])
  }

  lemma HeldIsWielded(cfgs: seq<Config>, s: Store, i: nat)
    requires Fleet(cfgs) && AllHeld(cfgs, s) && i < |cfgs|
    ensures WieldsOwned(cfgs[i], s)
  {
    forall h | OwnedAt(cfgs[i], s, h)
      ensures Wields(cfgs[i], s, h)
    {
      var k :| 0 <= k < |cfgs| && Wields(cfgs[k], s, h);
      assert cfgs[k].owner == cfgs[i].owner;
    }
  }

  /** In a good state, a label's call is one its instance may make and wants to make. */
  lemma GoodCall(cfgs: seq<Config>, demand: seq<seq<Endpoint>>, w: World, l: Label)
    requires Good(cfgs, demand, w) && CallOf(cfgs, w, l).Some?
    ensures OwnCall(cfgs, l.i, w.store, w.insts[l.i].phase.index, Desired(cfgs, demand, l.i), CallOf(cfgs, w, l).value)
  {
    var p := w.insts[l.i].phase;
    SteadyCallRightful(cfgs, l.i, w.store, p);
    assert p.existing == map[];
    assert GoodInst(cfgs[l.i], w.store, Desired(cfgs, demand, l.i), w.insts[l.i]);
    assert p.todo[0] in p.todo;
  }

  /** A route a strict instance's call changes or makes is one it wields. */
  lemma CallWields(cfgs: seq<Config>, i: nat, s: Store, index: Index, desired: seq<Endpoint>, c: Call, reply: Reply)
    requires i < |cfgs| && OwnCall(cfgs, i, s, index, desired, c) && AllHeld(cfgs, s)
    ensures var s' := Perform(s, c, reply).0;
      c.host in s'.live && AtHostChanged(s, s', c.host) ==> Wields(cfgs[i], s', c.host)
  {
    PerformAtHost(s, c, reply);
    if Resolve(cfgs[i].resolver, c.host).Some? {
      ResolvesToConfigured(cfgs[i].resolver, c.host);
    }
    if c.Create? && c.host !in s.live {
      CreatePlaces(cfgs, i, s, index, desired, c, reply);
    } else if c.Retarget? && Hits(s, c) {
      MovePlaces(cfgs, i, s, index, desired, c, reply);
    }
  }

  lemma HeldStep(cfgs: seq<Config>, demand: seq<seq<Endpoint>>, w: World, l: Label)
    requires Good(cfgs, demand, w)
    ensures AllHeld(cfgs, Next(cfgs, w, l).store)
  {
    NextStore(cfgs, w, l);
    if CallOf(cfgs, w, l).Some? {
      var c, s, s' := CallOf(cfgs, w, l).value, w.store, Next(cfgs, w, l).store;
      var reply := l.env(CallOp(KindOf(c)), c.host);
      GoodCall(cfgs, demand, w, l);
      PerformLocal(s, c, reply);
      CallWields(cfgs, l.i, s, w.insts[l.i].phase.index, Desired(cfgs, demand, l.i), c, reply);
      forall h | h in s'.live
        ensures exists i :: 0 <= i < |cfgs| && Wields(cfgs[i], s', h)
      {
        if AtHostChanged(s, s', h) {
          assert Wields(cfgs[l.i], s', h);
        } else {
          var k :| 0 <= k < |cfgs| && Wields(cfgs[k], s, h);
          assert Wields(cfgs[k], s', h);
        }
      }
    }
  }

  /** Another instance's step leaves this one as good as it was. */
  lemma GoodUnderOthers(cfgs: seq<Config>, demand: seq<seq<Endpoint>>, w: World, l: Label, k: nat)
    requires Good(cfgs, demand, w) && k < |cfgs| && k != l.i
    ensures GoodInst(cfgs[k], Next(cfgs, w, l).store, Desired(cfgs, demand, k), w.insts[k])
  {
    var s, s', x := w.store, Next(cfgs, w, l).store, w.insts[k];
    assert GoodInst(cfgs[k], s, Desired(cfgs, demand, k), x);
    forall ts
      ensures Selected(cfgs[k], Own, s', ts) == Selected(cfgs[k], Own, s, ts)
    {
      StrictIndexStaysTrue(cfgs, w, l, k, ts);
    }
    InformedKept(cfgs[k], s, s', Desired(cfgs, demand, k), x.phase);
    forall h
      ensures OwnedAt(cfgs[k], s', h) <==> OwnedAt(cfgs[k], s, h)
      ensures OwnedAt(cfgs[k], s, h) ==> s'.live[h] == s.live[h]
    {
      OthersLeaveOwned(cfgs, w, l, k, h);
    }
  }

  /** An instance that wants everything it owns goes on so. */
  lemma CleanAfterOwnCall(cfgs: seq<Config>, i: nat, s: Store, index: Index, desired: seq<Endpoint>, c: Call,
    reply: Reply)
    requires i < |cfgs| && OwnCall(cfgs, i, s, index, desired, c) && Clean(cfgs[i], s, desired)
    ensures Clean(cfgs[i], Perform(s, c, reply).0, desired)
  {
    PerformLocal(s, c, reply);
    PerformAtHost(s, c, reply);
  }

  lemma NothingLeftIsClean(cfg: Config, s: Store, desired: seq<Endpoint>)
    requires CoversUndesired(cfg, s, desired, [])
    ensures Clean(cfg, s, desired)
  {
  }

  /** What a step that makes no call may do to the history of cycles. */
  predicate QuietHistory(x: Inst, x': Inst, ch: Changes) {
    && x'.lastGood <= x'.started && (x'.phase.Calling? ==> x.phase.Writing?)
    && (x'.lastGood == x.lastGood || (x'.lastGood == x'.started == x.started && x.faultless &&
         (x.phase.Calling? || (x.phase.Planning? && IsEmptyPlan(ch)))))
  }

  lemma QuietEarly(cfg: Config, s: Store, x: Inst, env: Env, eps: seq<Endpoint>, ch: Changes)
    requires x.lastGood <= x.started && (x.phase.Idle? || x.phase.Listing? || x.phase.Adjusting? || x.phase.Pruning?)
    ensures NextInst(cfg, s, x, env, eps, ch).0 == s && QuietHistory(x, NextInst(cfg, s, x, env, eps, ch).1, ch)
  {
  }

  lemma QuietMiddle(cfg: Config, s: Store, x: Inst, env: Env, eps: seq<Endpoint>, ch: Changes)
    requires x.lastGood <= x.started && (x.phase.Planning? || x.phase.Indexing? || x.phase.Claiming?)
    ensures NextInst(cfg, s, x, env, eps, ch).0 == s && QuietHistory(x, NextInst(cfg, s, x, env, eps, ch).1, ch)
  {
  }

  lemma QuietStep(cfg: Config, s: Store, x: Inst, env: Env, eps: seq<Endpoint>, ch: Changes)
    requires x.lastGood <= x.started && !(x.phase.Calling? && x.phase.todo != [])
    ensures NextInst(cfg, s, x, env, eps, ch).0 == s && QuietHistory(x, NextInst(cfg, s, x, env, eps, ch).1, ch)
  {
    if x.phase.Idle? || x.phase.Listing? || x.phase.Adjusting? || x.phase.Pruning? {
      QuietEarly(cfg, s, x, env, eps, ch);
    } else if !x.phase.Writing? && !x.phase.Calling? {
      QuietMiddle(cfg, s, x, env, eps, ch);
    }
  }

  lemma WriteStep(cfg: Config, s: Store, x: Inst, ch: Changes, index: Index, existing: Index, env: Env)
    ensures var x' := Write(cfg, x, ch, index, existing, env);
      && (x'.phase.Calling? ==> x'.phase.todo == Decisions(cfg, index, existing, SkippedFor(cfg, ch), ch))
      && (x'.phase.Calling? && x'.faultless ==> x.faultless && SkippedFor(cfg, ch) == map[])
  {
  }

  /** An instance's own steps between calls. */
  lemma GoodQuietStep(cfgs: seq<Config>, demand: seq<seq<Endpoint>>, w: World, l: Label)
    requires Good(cfgs, demand, w) && l.i < |cfgs| && l.Act? && Lawful(cfgs, demand, w, l)
    requires !(w.insts[l.i].phase.Calling? && w.insts[l.i].phase.todo != [])
    ensures var (s', x') := NextInst(cfgs[l.i], w.store, w.insts[l.i], l.env, l.eps, l.ch);
      s' == w.store && GoodInst(cfgs[l.i], s', Desired(cfgs, demand, l.i), x')
  {
    var cfg, s, x, desired := cfgs[l.i], w.store, w.insts[l.i], Desired(cfgs, demand, l.i);
    assert GoodInst(cfg, s, desired, x);
    HeldIsWielded(cfgs, s, l.i);
    QuietStep(cfg, s, x, l.env, l.eps, l.ch);
    InformedOwnStep(cfg, s, x, demand[l.i], l.env, l.eps, l.ch);
    match x.phase
    case Planning(_, _) =>
      if IsEmptyPlan(l.ch) {
        EmptyPlanIsClean(cfg, s, desired, l.ch);
      }
    case Writing(ch, index, existing) =>
      WriteStep(cfg, s, x, ch, index, existing, l.env);
      PlanCoversUndesired(cfg, s, desired, ch);
    case Calling(_, _, _, _) =>
      if x.faultless {
        NothingLeftIsClean(cfg, s, desired);
      }
    case _ =>
  }

  lemma CalledHistory(cfg: Config, s: Store, x: Inst, index: Index, existing: Index, todo: seq<Decision>,
    known: Option<Index>, env: Env)
    requires todo != [] && !cfg.dryRun
    ensures var (s', x') := Called(cfg, s, x, index, existing, todo, known, env);
      && s' == AfterDecision(s, todo[0], env)
      && x'.started == x.started && x'.lastGood == x.lastGood
      && (x'.faultless ==> x.faultless && Smooth(s, todo[0], env))
      && x'.phase.Calling? && x'.phase.todo == todo[1..]
  {
    SmoothWhenNoError(cfg, s, x, todo[0], known, env);
    CalledParts(cfg, s, x, index, existing, todo, known, env);
  }

  /** An instance's own calls. */
  lemma GoodCallStep(cfgs: seq<Config>, demand: seq<seq<Endpoint>>, w: World, l: Label)
    requires Good(cfgs, demand, w) && l.i < |cfgs| && l.Act? && Lawful(cfgs, demand, w, l)
    requires w.insts[l.i].phase.Calling? && w.insts[l.i].phase.todo != []
    ensures var (s', x') := NextInst(cfgs[l.i], w.store, w.insts[l.i], l.env, l.eps, l.ch);
      GoodInst(cfgs[l.i], s', Desired(cfgs, demand, l.i), x')
  {
    var cfg, s, x, desired := cfgs[l.i], w.store, w.insts[l.i], Desired(cfgs, demand, l.i);
    var todo := x.phase.todo;
    assert GoodInst(cfg, s, desired, x);
    InformedOwnStep(cfg, s, x, demand[l.i], l.env, l.eps, l.ch);
    CalledHistory(cfg, s, x, x.phase.index, x.phase.existing, todo, x.phase.known, l.env);
    if todo[0].Go? {
      GoodCall(cfgs, demand, w, l);
      if x.lastGood > 0 {
        CleanAfterOwnCall(cfgs, l.i, s, x.phase.index, desired, todo[0].call,
          l.env(CallOp(KindOf(todo[0].call)), todo[0].call.host));
      }
    }
    if x.faultless && Smooth(s, todo[0], l.env) {
      UndesiredAfterCall(cfg, s, desired, todo, l.env);
    }
  }

  /** Every lawful step, and every crash, keeps the state good. */
  lemma GoodStep(cfgs: seq<Config>, demand: seq<seq<Endpoint>>, w: World, l: Label)
    requires Good(cfgs, demand, w) && Lawful(cfgs, demand, w, l)
    ensures Good(cfgs, demand, Next(cfgs, w, l))
  {
    if l.i < |cfgs| {
      StrictNeverClash(cfgs);
      SteadyStep(cfgs, w, l);
      HeldStep(cfgs, demand, w, l);
      var w' := Next(cfgs, w, l);
      forall k | 0 <= k < |cfgs|
        ensures GoodInst(cfgs[k], w'.store, Desired(cfgs, demand, k), w'.insts[k])
      {
        assert GoodInst(cfgs[k], w.store, Desired(cfgs, demand, k), w.insts[k]);
        if k != l.i {
          GoodUnderOthers(cfgs, demand, w, l, k);
        } else if l.Act? {
          if w.insts[k].phase.Calling? && w.insts[k].phase.todo != [] {
            GoodCallStep(cfgs, demand, w, l);
          } else {
            GoodQuietStep(cfgs, demand, w, l);
          }
        }
      }
    }
  }

  lemma {:induction false} GoodRun(cfgs: seq<Config>, demand: seq<seq<Endpoint>>, w: World, ls: seq<Label>)
    requires Good(cfgs, demand, w) && LawfulRun(cfgs, demand, w, ls)
    ensures Good(cfgs, demand, Run(cfgs, w, ls))
    decreases |ls|
  {
    if ls != [] {
      GoodStep(cfgs, demand, w, ls[0]);
      GoodRun(cfgs, demand, Next(cfgs, w, ls[0]), ls[1..]);
    }
  }

  lemma FreshIsGood(cfgs: seq<Config>, demand: seq<seq<Endpoint>>, w: World)
    requires Cooperative(cfgs, demand) && WellNumbered(cfgs, w) && Fresh(w) && AllHeld(cfgs, w.store)
    ensures Good(cfgs, demand, w)
  {
    FreshIsSteady(cfgs, w);
    assert forall k :: 0 <= k < |cfgs| ==> FreshInst(w.insts[k]);
  }
}
