/**
 Cross-owner safety for the plans ExternalDNS makes, in an account that others write to as well. A lawful
 plan creates only names Records did not report, so an instance that sees untagged routes claims only one
 that was made since. Fleets that are safe under arbitrary plans stay safe, and others become so.
 */
module LawfulSafety {
  import opened Wrappers
  import opened Text
  import opened Resolver
  import opened Routes
  import opened Reconcile
  import opened PerHost
  import opened Stabilise
  import opened Protocol
  import opened Safety

  // Runs.

  /** A step of an instance, or a route made by hand or by another tool, under a free name and without an owner tag. */
  datatype Event = ByInstance(l: Label) | Made(hostname: string, tunnel: string, comment: string)

  function Making(e: Event): Call
    requires e.Made?
  {
    Create(Lower(e.hostname), e.hostname, e.tunnel, e.comment)
  }

  ghost function Happen(cfgs: seq<Config>, w: World, e: Event): World
    requires WellNumbered(cfgs, w)
    ensures WellNumbered(cfgs, Happen(cfgs, w, e))
  {
    match e
    case ByInstance(l) => Next(cfgs, w, l)
    case Made(_, _, _) => w.(store := Perform(w.store, Making(e), Works).0)
  }

  ghost function Unfold(cfgs: seq<Config>, w: World, es: seq<Event>): World
    requires WellNumbered(cfgs, w)
    ensures WellNumbered(cfgs, Unfold(cfgs, w, es))
    decreases |es|
  {
    if es == [] then w else Unfold(cfgs, Happen(cfgs, w, es[0]), es[1..])
  }

  /** A planner that is asked plans for what it is shown; what is desired may change from cycle to cycle. */
  ghost predicate Plans(cfgs: seq<Config>, w: World, l: Label)
    requires WellNumbered(cfgs, w)
  {
    l.Act? && l.i < |cfgs| ==>
      match w.insts[l.i].phase
      case Planning(seen, desired) => IsPlanOf(cfgs[l.i], seen, desired, l.ch)
      case _ => true
  }

  ghost predicate LawfulEvent(cfgs: seq<Config>, w: World, e: Event)
    requires WellNumbered(cfgs, w)
  {
    match e
    case ByInstance(l) => Plans(cfgs, w, l)
    case Made(_, _, comment) => !IsTagged(comment)
  }

  ghost predicate LawfulEvents(cfgs: seq<Config>, w: World, es: seq<Event>)
    requires WellNumbered(cfgs, w)
    decreases |es|
  {
    es == [] || (LawfulEvent(cfgs, w, es[0]) && LawfulEvents(cfgs, Happen(cfgs, w, es[0]), es[1..]))
  }

  // Who clashes.

  /** One instance claims untagged routes for the host where another may act on them. */
  predicate LawfulClash(a: Config, b: Config, h: string) {
    Claims(a, h) && Grabs(b, h, Resolve(a.resolver, h).value)
  }

  ghost predicate NoLawfulClash(cfgs: seq<Config>) {
    forall i, j, h :: 0 <= i < |cfgs| && 0 <= j < |cfgs| && i != j && IsLower(h) ==> !LawfulClash(cfgs[i], cfgs[j], h)
  }

  /** Instances that do not clash under arbitrary plans do not under lawful ones. */
  lemma NoClashIsLawful(cfgs: seq<Config>)
    requires Fleet(cfgs) && NoClash(cfgs)
    ensures NoLawfulClash(cfgs)
  {
    forall i, j, h | 0 <= i < |cfgs| && 0 <= j < |cfgs| && i != j && IsLower(h)
      ensures !LawfulClash(cfgs[i], cfgs[j], h)
    {
      if Claims(cfgs[i], h) {
        ResolvesToConfigured(cfgs[i].resolver, h);
        assert !Clash(cfgs[i], cfgs[j], h, Resolve(cfgs[i].resolver, h).value);
      }
    }
  }

  // What keeps a claimer from claiming a route it has seen.

  ghost predicate NoAdopt(todo: seq<Decision>, h: string) {
    forall d :: d in todo ==> !(d.Go? && d.call.Adopt? && d.call.host == h)
  }

  /**
   In this cycle the instance will claim no route for the host that is, all the while, where it wants it: it
   has seen the host or is going to, or it has planned without creating it.
   */
  ghost predicate Aware(cfg: Config, p: Phase, h: string) {
    match p
    case Idle => true
    case Listing(rest, seen) =>
      h in seen || (Resolve(cfg.resolver, h).Some? && Resolve(cfg.resolver, h).value in rest)
    case Adjusting(seen) => h in seen
    case Pruning(seen, _) => h in seen
    case Planning(seen, _) => h in seen
    case Indexing(ch, _, _) => !HasKey(ch.create, h)
    case Claiming(ch, _, _, _) => !HasKey(ch.create, h)
    case Writing(ch, _, _) => !HasKey(ch.create, h)
    case Calling(_, _, todo, _) => NoAdopt(todo, h)
  }

  /** The instance does not claim the host's untagged route on this tunnel, not in this cycle. */
  ghost predicate Passes(cfg: Config, p: Phase, h: string, t: string) {
    Claims(cfg, h) && Resolve(cfg.resolver, h) == Some(t) ==> !cfg.strict && Aware(cfg, p, h)
  }

  ghost predicate OthersPass(cfgs: seq<Config>, xs: seq<Inst>, k: nat, h: string, t: string)
    requires |xs| == |cfgs|
  {
    forall a :: 0 <= a < |cfgs| && a != k ==> Passes(cfgs[a], xs[a].phase, h, t)
  }

  /** A route instance k may still act on: its own, or an untagged one no other is about to claim. */
  ghost predicate Free(cfgs: seq<Config>, xs: seq<Inst>, k: nat, h: string, r: Route, claim: bool)
    requires |xs| == |cfgs| && k < |cfgs|
  {
    && (claim ==> Resolve(cfgs[k].resolver, h) == Some(r.tunnel))
    && match RouteOwner(r.comment)
       case Some(o) => o == cfgs[k].owner
       case None => claim || OthersPass(cfgs, xs, k, h, r.tunnel)
  }

  /** What instance k may rely on about the live route behind a route it read as r0. */
  ghost predicate Grasp(cfgs: seq<Config>, xs: seq<Inst>, s: Store, k: nat, h: string, r0: Route, claim: bool)
    requires |xs| == |cfgs| && k < |cfgs|
  {
    h in s.live && s.live[h].id == r0.id ==>
      if IsTagged(r0.comment) then Owns(cfgs[k], s.live[h].comment) else Free(cfgs, xs, k, h, s.live[h], claim)
  }

  function IndexOf(p: Phase): Index {
    match p
    case Indexing(_, _, index) => index
    case Claiming(_, index, _, _) => index
    case Writing(_, index, _) => index
    case Calling(index, _, _, _) => index
    case _ => map[]
  }

  function ExistingOf(p: Phase): Index {
    match p
    case Claiming(_, _, _, existing) => existing
    case Writing(_, _, existing) => existing
    case Calling(_, existing, _, _) => existing
    case _ => map[]
  }

  /** It acts only on what it read: its own route or a free one, and claims only what it is not aware of. */
  ghost predicate Grasps(cfgs: seq<Config>, xs: seq<Inst>, s: Store, k: nat)
    requires |xs| == |cfgs| && k < |cfgs|
  {
    var cfg, p := cfgs[k], xs[k].phase;
    !cfg.dryRun ==>
      && (forall h :: Holds(cfg, IndexOf(p), h) ==> Grasp(cfgs, xs, s, k, h, IndexOf(p)[h], false))
      && (forall h :: Claimable(cfg, ExistingOf(p), h) && !Aware(cfg, p, h) ==>
            Grasp(cfgs, xs, s, k, h, ExistingOf(p)[h], true))
  }

  /** What an instance has read names its routes, and what it is about to do comes from that and its plan. */
  ghost predicate Proper(cfg: Config, s: Store, p: Phase) {
    && PinnedIndex(s, IndexOf(p)) && PinnedIndex(s, ExistingOf(p))
    && (!cfg.dryRun ==> AllManageable(cfg, IndexOf(p)) && (ExistingOf(p) != map[] ==> cfg.adopt))
    && ProperPhase(cfg, p)
  }

  ghost predicate ProperPhase(cfg: Config, p: Phase) {
    match p
    case Listing(rest, _) => Suffix(rest, Tunnels(cfg.resolver))
    case Indexing(ch, rest, _) => OneChangeEach(ch) && Suffix(rest, Tunnels(cfg.resolver))
    case Claiming(ch, _, rest, _) =>
      OneChangeEach(ch) && Suffix(rest, Tunnels(cfg.resolver)) && (rest != [] ==> cfg.adopt)
    case Writing(ch, _, _) => OneChangeEach(ch)
    case Calling(index, existing, todo, _) =>
      OneEach(todo) && (!cfg.dryRun ==> AllFromReads(cfg, index, existing, todo))
    case _ => true
  }

  ghost predicate AllFirm(cfgs: seq<Config>, w: World) {
    && WellNumbered(cfgs, w) && ValidStore(w.store)
    && forall k :: 0 <= k < |cfgs| ==> Proper(cfgs[k], w.store, w.insts[k].phase) && Grasps(cfgs, w.insts, w.store, k)
  }

  // Reading.

  lemma ReadInGrasp(cfgs: seq<Config>, xs: seq<Inst>, k: nat, s: Store, h: string)
    requires Fleet(cfgs) && NoLawfulClash(cfgs) && |xs| == |cfgs| && k < |cfgs| && !cfgs[k].dryRun && ValidStore(s)
    requires h in s.live && cfgs[k].matches(h)
    requires s.live[h].tunnel in Tunnels(cfgs[k].resolver) && Manageable(cfgs[k], s.live[h].comment)
    ensures Grasp(cfgs, xs, s, k, h, s.live[h], false)
  {
    LowerIdempotent(s.live[h].hostname);
    if !IsTagged(s.live[h].comment) {
      assert IsLower(h) && Grabs(cfgs[k], h, s.live[h].tunnel);
      forall a | 0 <= a < |cfgs| && a != k
        ensures Passes(cfgs[a], xs[a].phase, h, s.live[h].tunnel)
      {
        assert !LawfulClash(cfgs[a], cfgs[k], h);
      }
    }
  }

  lemma ClaimInGrasp(cfgs: seq<Config>, xs: seq<Inst>, k: nat, s: Store, h: string)
    requires |xs| == |cfgs| && k < |cfgs| && h in s.live && !IsTagged(s.live[h].comment)
    requires Resolve(cfgs[k].resolver, h) == Some(s.live[h].tunnel)
    ensures Grasp(cfgs, xs, s, k, h, s.live[h], true)
  {
  }

  // A call.

  /** A call instance p is about to make, of its first decision. */
  ghost predicate Next0(p: Phase, c: Call) {
    p.Calling? && p.todo != [] && p.todo[0] == Go(c)
  }

  /** It is made on what p read and still grasps. */
  ghost predicate Fair(cfgs: seq<Config>, xs: seq<Inst>, s: Store, p: nat, c: Call)
    requires |xs| == |cfgs| && p < |cfgs|
  {
    var cfg, x := cfgs[p], xs[p].phase;
    && !cfg.dryRun && PinnedCall(s, c) && FromReads(cfg, IndexOf(x), ExistingOf(x), c)
    && (c.Delete? || c.Retarget? ==> Grasp(cfgs, xs, s, p, c.host, IndexOf(x)[c.host], false))
    && (c.Adopt? ==> Grasp(cfgs, xs, s, p, c.host, ExistingOf(x)[c.host], true) && !Aware(cfg, x, c.host))
    && (c.Retarget? ==> Aware(cfg, x, c.host))
  }

  lemma OnlyDecision(todo: seq<Decision>, h: string)
    requires OneEach(todo) && todo != [] && todo[0].Go? && todo[0].call.host == h
    ensures forall d :: d in todo[1..] ==> !ForHost(d, h)
    ensures NoAdopt(todo[1..], h)
    ensures !todo[0].call.Adopt? ==> NoAdopt(todo, h)
  {
    forall d | d in todo[1..]
      ensures !ForHost(d, h)
    {
      var j :| 0 <= j < |todo| - 1 && todo[1..][j] == d;
      assert todo[j + 1] == d;
    }
    assert todo == [todo[0]] + todo[1..];
  }

  lemma FirmCallFair(cfgs: seq<Config>, xs: seq<Inst>, s: Store, p: nat, c: Call)
    requires |xs| == |cfgs| && p < |cfgs| && !cfgs[p].dryRun && Next0(xs[p].phase, c)
    requires Proper(cfgs[p], s, xs[p].phase) && Grasps(cfgs, xs, s, p)
    ensures Fair(cfgs, xs, s, p, c)
  {
    var x := xs[p].phase;
    assert x.todo[0] in x.todo;
    assert FromReads(cfgs[p], x.index, x.existing, c);
    OnlyDecision(x.todo, c.host);
    if c.Adopt? {
      assert !Aware(cfgs[p], x, c.host);
    }
  }

  /** A fair call finds the live route its caller's own, or untagged. */
  lemma FairFinds(cfgs: seq<Config>, xs: seq<Inst>, s: Store, p: nat, c: Call)
    requires |xs| == |cfgs| && p < |cfgs| && Fair(cfgs, xs, s, p, c) && Hits(s, c)
    ensures !IsTagged(s.live[c.host].comment) || Owns(cfgs[p], s.live[c.host].comment)
    ensures c.Adopt? ==> Resolve(cfgs[p].resolver, c.host) == Some(s.live[c.host].tunnel)
    ensures c.Retarget? && !IsTagged(IndexOf(xs[p].phase)[c.host].comment) && !IsTagged(s.live[c.host].comment) ==>
      OthersPass(cfgs, xs, p, c.host, s.live[c.host].tunnel)
  {
  }

  /** Who holds a route in its grasp: what k read, on a host in its filter. */
  ghost predicate Reader(cfgs: seq<Config>, xs: seq<Inst>, k: nat, h: string, r0: Route, claim: bool)
    requires |xs| == |cfgs| && k < |cfgs|
  {
    && !cfgs[k].dryRun && cfgs[k].matches(h)
    && (IsTagged(r0.comment) ==> !claim && Owns(cfgs[k], r0.comment))
    && (claim ==> Claims(cfgs[k], h) && !Aware(cfgs[k], xs[k].phase, h))
    && (!claim ==> h in IndexOf(xs[k].phase) && IndexOf(xs[k].phase)[h] == r0)
  }

  /** Only the claiming instance can have been holding the route. */
  lemma GraspAfterClaim(cfgs: seq<Config>, xs: seq<Inst>, s: Store, p: nat, c: Call, k: nat, h: string, r0: Route,
    claim: bool)
    requires Fleet(cfgs) && NoLawfulClash(cfgs) && |xs| == |cfgs| && p < |cfgs| && k < |cfgs| && ValidStore(s)
    requires c.Adopt? && c.host == h && Fair(cfgs, xs, s, p, c) && Hits(s, c) && s.live[h].id == r0.id
    requires Reader(cfgs, xs, k, h, r0, claim) && Grasp(cfgs, xs, s, k, h, r0, claim)
    ensures p == k
  {
    FairFinds(cfgs, xs, s, p, c);
    LowerIdempotent(s.live[h].hostname);
    var t := s.live[h].tunnel;
    assert IsLower(h) && Claims(cfgs[p], h) && Resolve(cfgs[p].resolver, h) == Some(t);
    if claim {
      ResolvesToConfigured(cfgs[k].resolver, h);
      assert Grabs(cfgs[k], h, t);
    }
  }

  /** A move puts an untagged route where only the mover could claim it, and this cycle it will not. */
  lemma OthersPassAfterMove(cfgs: seq<Config>, xs: seq<Inst>, p: nat, k: nat, h: string, t: string)
    requires Fleet(cfgs) && NoLawfulClash(cfgs) && |xs| == |cfgs| && p < |cfgs| && k < |cfgs| && IsLower(h)
    requires !cfgs[p].dryRun && !cfgs[p].strict && cfgs[p].matches(h) && Resolve(cfgs[p].resolver, h) == Some(t)
    requires Aware(cfgs[p], xs[p].phase, h)
    ensures OthersPass(cfgs, xs, k, h, t)
  {
    ResolvesToConfigured(cfgs[p].resolver, h);
    assert Grabs(cfgs[p], h, t);
    forall a | 0 <= a < |cfgs| && a != k
      ensures Passes(cfgs[a], xs[a].phase, h, t)
    {
      if a != p {
        assert !LawfulClash(cfgs[a], cfgs[p], h);
      }
    }
  }

  /** What a retarget leaves at its host. */
  function Moved(r: Route, t: string, m: string): Route {
    r.(tunnel := if t == "" then r.tunnel else t, comment := if m == "" then r.comment else m)
  }

  /** The mover owned it by its tag: then it is the mover's still, and nobody else was holding it. */
  lemma GraspAfterOwnMove(cfgs: seq<Config>, xs: seq<Inst>, s: Store, p: nat, c: Call, k: nat, h: string, r0: Route,
    claim: bool)
    requires Fleet(cfgs) && |xs| == |cfgs| && p < |cfgs| && k < |cfgs| && ValidStore(s)
    requires c.Retarget? && c.host == h && Fair(cfgs, xs, s, p, c) && Hits(s, c) && s.live[h].id == r0.id
    requires IsTagged(s.live[h].comment) && c.tunnel != ""
    requires Reader(cfgs, xs, k, h, r0, claim) && Grasp(cfgs, xs, s, k, h, r0, claim)
    ensures p == k
    ensures IsTagged(c.comment) ==> Owns(cfgs[k], Moved(s.live[h], c.tunnel, c.comment).comment)
    ensures IsTagged(r0.comment) ==> Owns(cfgs[k], Moved(s.live[h], c.tunnel, c.comment).comment)
  {
    FairFinds(cfgs, xs, s, p, c);
  }

  lemma GraspAfterMove(cfgs: seq<Config>, xs: seq<Inst>, s: Store, p: nat, c: Call, k: nat, h: string, r0: Route,
    claim: bool)
    requires Fleet(cfgs) && NoLawfulClash(cfgs) && |xs| == |cfgs| && p < |cfgs| && k < |cfgs| && ValidStore(s)
    requires c.Retarget? && c.host == h && Fair(cfgs, xs, s, p, c) && Hits(s, c) && s.live[h].id == r0.id
    requires Reader(cfgs, xs, k, h, r0, claim) && Grasp(cfgs, xs, s, k, h, r0, claim)
    ensures var r := Moved(s.live[h], c.tunnel, c.comment);
      if IsTagged(r0.comment) then Owns(cfgs[k], r.comment) else Free(cfgs, xs, k, h, r, claim)
  {
    var r := Moved(s.live[h], c.tunnel, c.comment);
    LowerIdempotent(s.live[h].hostname);
    ResolvesToConfigured(cfgs[p].resolver, h);
    assert c.tunnel != "";
    FairFinds(cfgs, xs, s, p, c);
    if IsTagged(s.live[h].comment) {
      GraspAfterOwnMove(cfgs, xs, s, p, c, k, h, r0, claim);
    }
    if !IsTagged(r.comment) && !IsTagged(c.comment) {
      OthersPassAfterMove(cfgs, xs, p, k, h, c.tunnel);
    }
  }

  /** A fair call leaves every grasp in place, whoever holds it. */
  lemma GraspUnderCall(cfgs: seq<Config>, xs: seq<Inst>, s: Store, p: nat, c: Call, reply: Reply,
    k: nat, h: string, r0: Route, claim: bool)
    requires Fleet(cfgs) && NoLawfulClash(cfgs) && |xs| == |cfgs| && p < |cfgs| && k < |cfgs| && ValidStore(s)
    requires Fair(cfgs, xs, s, p, c) && r0.id < s.next
    requires Reader(cfgs, xs, k, h, r0, claim) && Grasp(cfgs, xs, s, k, h, r0, claim)
    ensures Grasp(cfgs, xs, Perform(s, c, reply).0, k, h, r0, claim)
  {
    PerformLocal(s, c, reply);
    if h == c.host {
      PerformAtHost(s, c, reply);
      if Hits(s, c) && !reply.Fails? && s.live[h].id == r0.id {
        match c
        case Delete(_, _) =>
        case Create(_, _, _, _) =>
        case Adopt(_, _, _) => GraspAfterClaim(cfgs, xs, s, p, c, k, h, r0, claim);
        case Retarget(_, _, _, _) => GraspAfterMove(cfgs, xs, s, p, c, k, h, r0, claim);
      }
    }
  }

  /** So does a route made by hand: its id is new. */
  lemma GraspUnderMaking(cfgs: seq<Config>, xs: seq<Inst>, s: Store, c: Call, k: nat, h: string, r0: Route, claim: bool)
    requires |xs| == |cfgs| && k < |cfgs| && ValidStore(s) && c.Create? && PinnedCall(s, c)
    requires r0.id < s.next && Grasp(cfgs, xs, s, k, h, r0, claim)
    ensures Grasp(cfgs, xs, Perform(s, c, Works).0, k, h, r0, claim)
  {
    PerformLocal(s, c, Works);
    PerformAtHost(s, c, Works);
  }

  lemma ReadersReading(cfgs: seq<Config>, xs: seq<Inst>, s: Store, k: nat, h: string)
    requires |xs| == |cfgs| && k < |cfgs| && !cfgs[k].dryRun && Proper(cfgs[k], s, xs[k].phase)
    ensures Holds(cfgs[k], IndexOf(xs[k].phase), h) ==>
      Reader(cfgs, xs, k, h, IndexOf(xs[k].phase)[h], false) && IndexOf(xs[k].phase)[h].id < s.next
    ensures Claimable(cfgs[k], ExistingOf(xs[k].phase), h) && !Aware(cfgs[k], xs[k].phase, h) ==>
      Reader(cfgs, xs, k, h, ExistingOf(xs[k].phase)[h], true) && ExistingOf(xs[k].phase)[h].id < s.next
  {
  }

  /** Every instance stays firm under a fair call, before anyone takes another step. */
  lemma FirmUnderCall(cfgs: seq<Config>, xs: seq<Inst>, s: Store, p: nat, c: Call, reply: Reply, k: nat)
    requires Fleet(cfgs) && NoLawfulClash(cfgs) && |xs| == |cfgs| && p < |cfgs| && k < |cfgs| && ValidStore(s)
    requires Fair(cfgs, xs, s, p, c) && Proper(cfgs[k], s, xs[k].phase) && Grasps(cfgs, xs, s, k)
    ensures Proper(cfgs[k], Perform(s, c, reply).0, xs[k].phase) && Grasps(cfgs, xs, Perform(s, c, reply).0, k)
  {
    var s', x := Perform(s, c, reply).0, xs[k].phase;
    PinnedIndexStable(s, c, reply, IndexOf(x));
    PinnedIndexStable(s, c, reply, ExistingOf(x));
    if !cfgs[k].dryRun {
      forall h | Holds(cfgs[k], IndexOf(x), h)
        ensures Grasp(cfgs, xs, s', k, h, IndexOf(x)[h], false)
      {
        ReadersReading(cfgs, xs, s, k, h);
        GraspUnderCall(cfgs, xs, s, p, c, reply, k, h, IndexOf(x)[h], false);
      }
      forall h | Claimable(cfgs[k], ExistingOf(x), h) && !Aware(cfgs[k], x, h)
        ensures Grasp(cfgs, xs, s', k, h, ExistingOf(x)[h], true)
      {
        ReadersReading(cfgs, xs, s, k, h);
        GraspUnderCall(cfgs, xs, s, p, c, reply, k, h, ExistingOf(x)[h], true);
      }
    }
  }

  lemma FirmUnderMaking(cfgs: seq<Config>, xs: seq<Inst>, s: Store, c: Call, k: nat)
    requires |xs| == |cfgs| && k < |cfgs| && ValidStore(s) && c.Create? && PinnedCall(s, c)
    requires Proper(cfgs[k], s, xs[k].phase) && Grasps(cfgs, xs, s, k)
    ensures Proper(cfgs[k], Perform(s, c, Works).0, xs[k].phase) && Grasps(cfgs, xs, Perform(s, c, Works).0, k)
  {
    var s', x := Perform(s, c, Works).0, xs[k].phase;
    PinnedIndexStable(s, c, Works, IndexOf(x));
    PinnedIndexStable(s, c, Works, ExistingOf(x));
    if !cfgs[k].dryRun {
      forall h | Holds(cfgs[k], IndexOf(x), h)
        ensures Grasp(cfgs, xs, s', k, h, IndexOf(x)[h], false)
      {
        ReadersReading(cfgs, xs, s, k, h);
        GraspUnderMaking(cfgs, xs, s, c, k, h, IndexOf(x)[h], false);
      }
      forall h | Claimable(cfgs[k], ExistingOf(x), h) && !Aware(cfgs[k], x, h)
        ensures Grasp(cfgs, xs, s', k, h, ExistingOf(x)[h], true)
      {
        ReadersReading(cfgs, xs, s, k, h);
        GraspUnderMaking(cfgs, xs, s, c, k, h, ExistingOf(x)[h], true);
      }
    }
  }

  // A change of phase, the account standing still.

  /** The instance stays aware of the untagged routes that are where it wants them. */
  ghost predicate StaysAware(cfg: Config, s: Store, p: Phase, p': Phase) {
    !cfg.strict ==> forall h :: InPlace(cfg, s, h) && Aware(cfg, p, h) ==> Aware(cfg, p', h)
  }

  predicate InPlace(cfg: Config, s: Store, h: string) {
    && h in s.live && !IsTagged(s.live[h].comment)
    && Claims(cfg, h) && Resolve(cfg.resolver, h) == Some(s.live[h].tunnel)
  }

  lemma GraspOthersPhase(cfgs: seq<Config>, xs: seq<Inst>, s: Store, i: nat, x': Inst, k: nat, h: string, r0: Route,
    claim: bool)
    requires |xs| == |cfgs| && i < |cfgs| && k < |cfgs|
    requires k != i ==> StaysAware(cfgs[i], s, xs[i].phase, x'.phase)
    requires Grasp(cfgs, xs, s, k, h, r0, claim)
    ensures Grasp(cfgs, xs[i := x'], s, k, h, r0, claim)
  {
    var xs' := xs[i := x'];
    if h in s.live && s.live[h].id == r0.id && !IsTagged(r0.comment) && !IsTagged(s.live[h].comment) && !claim {
      forall a | 0 <= a < |cfgs| && a != k
        ensures Passes(cfgs[a], xs'[a].phase, h, s.live[h].tunnel)
      {
        assert Passes(cfgs[a], xs[a].phase, h, s.live[h].tunnel);
      }
    }
  }

  lemma OthersFirm(cfgs: seq<Config>, xs: seq<Inst>, s: Store, i: nat, x': Inst, k: nat)
    requires |xs| == |cfgs| && i < |cfgs| && k < |cfgs| && k != i && StaysAware(cfgs[i], s, xs[i].phase, x'.phase)
    requires Grasps(cfgs, xs, s, k)
    ensures Grasps(cfgs, xs[i := x'], s, k)
  {
    var p := xs[k].phase;
    if !cfgs[k].dryRun {
      forall h | Holds(cfgs[k], IndexOf(p), h)
        ensures Grasp(cfgs, xs[i := x'], s, k, h, IndexOf(p)[h], false)
      {
        GraspOthersPhase(cfgs, xs, s, i, x', k, h, IndexOf(p)[h], false);
      }
      forall h | Claimable(cfgs[k], ExistingOf(p), h) && !Aware(cfgs[k], p, h)
        ensures Grasp(cfgs, xs[i := x'], s, k, h, ExistingOf(p)[h], true)
      {
        GraspOthersPhase(cfgs, xs, s, i, x', k, h, ExistingOf(p)[h], true);
      }
    }
  }

  /** What the instance reads in this step, it grasps: what it had read it grasped before. */
  ghost predicate ReadsOn(cfg: Config, s: Store, p: Phase, p': Phase) {
    && (forall h :: Holds(cfg, IndexOf(p'), h) ==>
          (Holds(cfg, IndexOf(p), h) && IndexOf(p')[h] == IndexOf(p)[h])
          || (h in s.live && IndexOf(p')[h] == s.live[h] && Lists(cfg, s.live[h].tunnel)))
    && (forall h :: Claimable(cfg, ExistingOf(p'), h) && !Aware(cfg, p', h) ==>
          (Claimable(cfg, ExistingOf(p), h) && ExistingOf(p')[h] == ExistingOf(p)[h] && !Aware(cfg, p, h))
          || (h in s.live && ExistingOf(p')[h] == s.live[h]))
  }

  lemma SelfFirm(cfgs: seq<Config>, xs: seq<Inst>, s: Store, i: nat, x': Inst)
    requires Fleet(cfgs) && NoLawfulClash(cfgs) && |xs| == |cfgs| && i < |cfgs| && ValidStore(s)
    requires Grasps(cfgs, xs, s, i) && ReadsOn(cfgs[i], s, xs[i].phase, x'.phase)
    ensures Grasps(cfgs, xs[i := x'], s, i)
  {
    var p, p' := xs[i].phase, x'.phase;
    if !cfgs[i].dryRun {
      forall h | Holds(cfgs[i], IndexOf(p'), h)
        ensures Grasp(cfgs, xs[i := x'], s, i, h, IndexOf(p')[h], false)
      {
        if Holds(cfgs[i], IndexOf(p), h) && IndexOf(p')[h] == IndexOf(p)[h] {
          GraspOthersPhase(cfgs, xs, s, i, x', i, h, IndexOf(p)[h], false);
        } else {
          ReadInGrasp(cfgs, xs[i := x'], i, s, h);
        }
      }
      forall h | Claimable(cfgs[i], ExistingOf(p'), h) && !Aware(cfgs[i], p', h)
        ensures Grasp(cfgs, xs[i := x'], s, i, h, ExistingOf(p')[h], true)
      {
        if Claimable(cfgs[i], ExistingOf(p), h) && ExistingOf(p')[h] == ExistingOf(p)[h] && !Aware(cfgs[i], p, h) {
          GraspOthersPhase(cfgs, xs, s, i, x', i, h, ExistingOf(p)[h], true);
        } else {
          ClaimInGrasp(cfgs, xs[i := x'], i, s, h);
        }
      }
    }
  }

  /** A step in which the account stands still: all an instance has to show for it. */
  ghost predicate Advances(cfg: Config, s: Store, p: Phase, p': Phase) {
    Proper(cfg, s, p') && StaysAware(cfg, s, p, p') && ReadsOn(cfg, s, p, p')
  }

  lemma AllFirmAfter(cfgs: seq<Config>, w: World, i: nat, x': Inst)
    requires Fleet(cfgs) && NoLawfulClash(cfgs) && AllFirm(cfgs, w) && i < |cfgs|
    requires Advances(cfgs[i], w.store, w.insts[i].phase, x'.phase)
    ensures AllFirm(cfgs, World(w.store, w.insts[i := x']))
  {
    var xs' := w.insts[i := x'];
    SelfFirm(cfgs, w.insts, w.store, i, x');
    forall k | 0 <= k < |cfgs| && k != i
      ensures Grasps(cfgs, xs', w.store, k)
    {
      OthersFirm(cfgs, w.insts, w.store, i, x', k);
    }
  }

  // Each phase.

  lemma AdvancesToIdle(cfg: Config, s: Store, p: Phase)
    ensures Advances(cfg, s, p, Idle)
  {
  }

  lemma ListingAdvances(cfg: Config, s: Store, x: Inst, rest: seq<string>, seen: Index, env: Env)
    requires x.phase == Listing(rest, seen) && Proper(cfg, s, x.phase)
    ensures Advances(cfg, s, x.phase, NextListing(cfg, s, x, rest, seen, env).phase)
  {
    if rest != [] {
      SuffixNext(rest, Tunnels(cfg.resolver));
    }
  }

  lemma BeginAdvances(cfg: Config, s: Store, x: Inst)
    requires ValidConfig(cfg) && x.phase.Idle?
    ensures Advances(cfg, s, x.phase, Begin(cfg, x).phase)
  {
    forall h | Resolve(cfg.resolver, h).Some?
      ensures Resolve(cfg.resolver, h).value in Tunnels(cfg.resolver)
    {
      ResolvesToConfigured(cfg.resolver, h);
    }
  }

  lemma PlanAware(cfg: Config, s: Store, seen: Index, desired: seq<Endpoint>, ch: Changes, rest: seq<string>)
    requires IsPlanOf(cfg, seen, desired, ch)
    ensures StaysAware(cfg, s, Planning(seen, desired), Indexing(ch, rest, map[]))
  {
    forall h | Claims(cfg, h) && h in seen
      ensures !HasKey(ch.create, h)
    {
      assert InReport(cfg, seen, h);
    }
  }

  lemma PlanAdvances(cfg: Config, s: Store, x: Inst, ch: Changes)
    requires x.phase.Planning? && IsPlanOf(cfg, x.phase.seen, x.phase.desired, ch)
    ensures Advances(cfg, s, x.phase, Plan(cfg, x, ch).phase)
  {
    if IsEmptyPlan(ch) {
      AdvancesToIdle(cfg, s, x.phase);
    } else {
      PlanAware(cfg, s, x.phase.seen, x.phase.desired, ch, Plan(cfg, x, ch).phase.rest);
    }
  }

  lemma EarlyAdvances(cfg: Config, s: Store, x: Inst, env: Env, eps: seq<Endpoint>, ch: Changes)
    requires ValidConfig(cfg) && Proper(cfg, s, x.phase)
    requires (x.phase.Planning? ==> IsPlanOf(cfg, x.phase.seen, x.phase.desired, ch))
    requires x.phase.Idle? || x.phase.Listing? || x.phase.Adjusting? || x.phase.Pruning? || x.phase.Planning?
    ensures Advances(cfg, s, x.phase, NextInst(cfg, s, x, env, eps, ch).1.phase)
  {
    match x.phase
    case Idle => BeginAdvances(cfg, s, x);
    case Listing(rest, seen) => ListingAdvances(cfg, s, x, rest, seen, env);
    case Adjusting(_) =>
    case Pruning(_, _) =>
    case Planning(_, _) => PlanAdvances(cfg, s, x, ch);
  }

  lemma IndexProper(cfg: Config, s: Store, ch: Changes, rest: seq<string>, index: Index)
    requires ValidStore(s) && rest != [] && Proper(cfg, s, Indexing(ch, rest, index))
    ensures Proper(cfg, s, Indexing(ch, rest[1..], index + Selected(cfg, Own, s, [rest[0]])))
  {
    SuffixNext(rest, Tunnels(cfg.resolver));
    SelectedPinned(cfg, Own, s, [rest[0]]);
  }

  lemma IndexReadOn(cfg: Config, s: Store, ch: Changes, rest: seq<string>, index: Index)
    requires rest != [] && Suffix(rest, Tunnels(cfg.resolver))
    ensures var more := index + Selected(cfg, Own, s, [rest[0]]);
      ReadsOn(cfg, s, Indexing(ch, rest, index), Indexing(ch, rest[1..], more))
  {
    SuffixNext(rest, Tunnels(cfg.resolver));
  }

  /** The phases of one batch plan the same creates. */
  lemma SameCreates(cfg: Config, s: Store, p: Phase, p': Phase)
    requires p.Indexing? || p.Claiming?
    requires (p'.Indexing? || p'.Claiming? || p'.Writing?) && p'.ch == p.ch
    ensures StaysAware(cfg, s, p, p')
  {
  }

  lemma IndexedAdvances(cfg: Config, s: Store, ch: Changes, index: Index, rest: seq<string>)
    requires Proper(cfg, s, Indexing(ch, [], index)) && Suffix(rest, Tunnels(cfg.resolver))
    requires (rest != [] ==> cfg.adopt)
    ensures Advances(cfg, s, Indexing(ch, [], index), Claiming(ch, index, rest, map[]))
  {
    SameCreates(cfg, s, Indexing(ch, [], index), Claiming(ch, index, rest, map[]));
  }

  lemma IndexingAdvances(cfg: Config, s: Store, x: Inst, ch: Changes, rest: seq<string>, index: Index, env: Env)
    requires ValidStore(s) && x.phase == Indexing(ch, rest, index) && Proper(cfg, s, x.phase)
    ensures Advances(cfg, s, x.phase, NextIndexing(cfg, s, x, ch, rest, index, env).phase)
  {
    if rest == [] {
      IndexedAdvances(cfg, s, ch, index, if NeedsExisting(cfg, ch) then Tunnels(cfg.resolver) else []);
    } else if env(ListOwned, rest[0]).Works? {
      var more := index + Selected(cfg, Own, s, [rest[0]]);
      IndexProper(cfg, s, ch, rest, index);
      IndexReadOn(cfg, s, ch, rest, index);
      SameCreates(cfg, s, x.phase, Indexing(ch, rest[1..], more));
    } else {
      AdvancesToIdle(cfg, s, x.phase);
    }
  }

  lemma ExistingProper(cfg: Config, s: Store, ch: Changes, index: Index, rest: seq<string>, existing: Index)
    requires ValidStore(s) && rest != [] && Proper(cfg, s, Claiming(ch, index, rest, existing))
    ensures Proper(cfg, s, Claiming(ch, index, rest[1..], existing + Selected(cfg, Any, s, [rest[0]])))
  {
    SuffixNext(rest, Tunnels(cfg.resolver));
    SelectedPinned(cfg, Any, s, [rest[0]]);
  }

  lemma ExistingReadOn(cfg: Config, s: Store, ch: Changes, index: Index, rest: seq<string>, existing: Index)
    requires rest != []
    ensures var more := existing + Selected(cfg, Any, s, [rest[0]]);
      ReadsOn(cfg, s, Claiming(ch, index, rest, existing), Claiming(ch, index, rest[1..], more))
  {
  }

  lemma ClaimedAdvances(cfg: Config, s: Store, ch: Changes, index: Index, existing: Index)
    requires Proper(cfg, s, Claiming(ch, index, [], existing))
    ensures Advances(cfg, s, Claiming(ch, index, [], existing), Writing(ch, index, existing))
  {
    SameCreates(cfg, s, Claiming(ch, index, [], existing), Writing(ch, index, existing));
  }

  lemma ClaimingAdvances(cfg: Config, s: Store, x: Inst, ch: Changes, index: Index, rest: seq<string>, existing: Index,
    env: Env)
    requires ValidStore(s) && x.phase == Claiming(ch, index, rest, existing) && Proper(cfg, s, x.phase)
    ensures Advances(cfg, s, x.phase, NextClaiming(cfg, s, x, ch, index, rest, existing, env).phase)
  {
    if rest == [] {
      ClaimedAdvances(cfg, s, ch, index, existing);
    } else if env(ListAdoption, rest[0]).Works? {
      var more := existing + Selected(cfg, Any, s, [rest[0]]);
      ExistingProper(cfg, s, ch, index, rest, existing);
      ExistingReadOn(cfg, s, ch, index, rest, existing);
      SameCreates(cfg, s, x.phase, Claiming(ch, index, rest[1..], more));
    } else {
      AdvancesToIdle(cfg, s, x.phase);
    }
  }

  /** Only a planned create becomes a claim. */
  lemma ClaimsAreCreates(cfg: Config, index: Index, existing: Index, skipped: map<string, Why>, ch: Changes, h: string)
    requires !HasKey(ch.create, h)
    ensures NoAdopt(Decisions(cfg, index, existing, skipped, ch), h)
  {
    assert NoAdopt(DecideDeletes(cfg, index, ch.delete), h);
    assert NoAdopt(DecideUpdates(cfg, index, ch.update), h);
    forall i | 0 <= i < |ch.create|
      ensures var d := DecideCreate(cfg, existing, skipped, ch.create[i]); !(d.Go? && d.call.Adopt? && d.call.host == h)
    {
      assert Key(ch.create[i]) != h;
    }
    assert NoAdopt(DecideCreates(cfg, existing, skipped, ch.create), h);
  }

  lemma DecidedProper(cfg: Config, s: Store, ch: Changes, index: Index, existing: Index)
    requires ValidConfig(cfg) && Proper(cfg, s, Writing(ch, index, existing))
    ensures Proper(cfg, s, Calling(index, existing, Decisions(cfg, index, existing, SkippedFor(cfg, ch), ch), None))
  {
    if !cfg.dryRun {
      DecisionsFromReads(cfg, index, existing, ch);
    }
    DecisionHosts(cfg, index, existing, SkippedFor(cfg, ch), ch);
  }

  lemma DecidedAware(cfg: Config, s: Store, ch: Changes, index: Index, existing: Index)
    ensures var p' := Calling(index, existing, Decisions(cfg, index, existing, SkippedFor(cfg, ch), ch), None);
      StaysAware(cfg, s, Writing(ch, index, existing), p') && ReadsOn(cfg, s, Writing(ch, index, existing), p')
  {
    forall h | !HasKey(ch.create, h) {
      ClaimsAreCreates(cfg, index, existing, SkippedFor(cfg, ch), ch, h);
    }
  }

  lemma WritingAdvances(cfg: Config, s: Store, x: Inst, ch: Changes, index: Index, existing: Index, env: Env)
    requires ValidConfig(cfg) && x.phase == Writing(ch, index, existing) && Proper(cfg, s, x.phase)
    ensures Advances(cfg, s, x.phase, Write(cfg, x, ch, index, existing, env).phase)
  {
    AdvancesToIdle(cfg, s, x.phase);
    DecidedProper(cfg, s, ch, index, existing);
    DecidedAware(cfg, s, ch, index, existing);
  }

  lemma RestAdvances(cfg: Config, s: Store, index: Index, existing: Index, todo: seq<Decision>,
    known: Option<Index>, known': Option<Index>)
    requires todo != [] && Proper(cfg, s, Calling(index, existing, todo, known))
    ensures Advances(cfg, s, Calling(index, existing, todo, known), Calling(index, existing, todo[1..], known'))
  {
    assert forall d :: d in todo[1..] ==> d in todo;
    assert OneEach(todo[1..]);
  }

  lemma LateAdvances(cfg: Config, s: Store, x: Inst, env: Env, eps: seq<Endpoint>, ch: Changes)
    requires ValidConfig(cfg) && ValidStore(s) && Proper(cfg, s, x.phase)
    requires x.phase.Indexing? || x.phase.Claiming? || x.phase.Writing?
    ensures Advances(cfg, s, x.phase, NextInst(cfg, s, x, env, eps, ch).1.phase)
  {
    match x.phase
    case Indexing(plan, rest, index) => IndexingAdvances(cfg, s, x, plan, rest, index, env);
    case Claiming(plan, index, rest, existing) => ClaimingAdvances(cfg, s, x, plan, index, rest, existing, env);
    case Writing(plan, index, existing) => WritingAdvances(cfg, s, x, plan, index, existing, env);
  }

  // Steps and runs.

  /** A step in which no call is made. */
  lemma QuietAdvances(cfgs: seq<Config>, w: World, l: Label)
    requires Fleet(cfgs) && AllFirm(cfgs, w) && l.i < |cfgs| && l.Act? && Plans(cfgs, w, l)
    requires !w.insts[l.i].phase.Calling? || w.insts[l.i].phase.todo == []
    ensures Advances(cfgs[l.i], w.store, w.insts[l.i].phase, Next(cfgs, w, l).insts[l.i].phase)
    ensures Next(cfgs, w, l).store == w.store
  {
    var cfg, x := cfgs[l.i], w.insts[l.i];
    StoreChangesByCall(cfg, w.store, x, l.env, l.eps, l.ch);
    if x.phase.Calling? {
      AdvancesToIdle(cfg, w.store, x.phase);
    } else if x.phase.Indexing? || x.phase.Claiming? || x.phase.Writing? {
      LateAdvances(cfg, w.store, x, l.env, l.eps, l.ch);
    } else {
      EarlyAdvances(cfg, w.store, x, l.env, l.eps, l.ch);
    }
  }

  /** The call of a step: first the account changes, then the instance moves on. */
  lemma CallFirm(cfgs: seq<Config>, w: World, l: Label)
    requires Fleet(cfgs) && NoLawfulClash(cfgs) && AllFirm(cfgs, w) && l.i < |cfgs| && l.Act?
    requires w.insts[l.i].phase.Calling? && w.insts[l.i].phase.todo != []
    ensures AllFirm(cfgs, World(Next(cfgs, w, l).store, w.insts))
  {
    NextStore(cfgs, w, l);
    if CallOf(cfgs, w, l).Some? {
      var c := CallOf(cfgs, w, l).value;
      var reply := l.env(CallOp(KindOf(c)), c.host);
      FirmCallFair(cfgs, w.insts, w.store, l.i, c);
      PerformLocal(w.store, c, reply);
      forall k | 0 <= k < |cfgs|
        ensures Proper(cfgs[k], Next(cfgs, w, l).store, w.insts[k].phase)
        ensures Grasps(cfgs, w.insts, Next(cfgs, w, l).store, k)
      {
        FirmUnderCall(cfgs, w.insts, w.store, l.i, c, reply, k);
      }
    }
  }

  lemma CalledFirm(cfgs: seq<Config>, w: World, l: Label)
    requires Fleet(cfgs) && NoLawfulClash(cfgs) && AllFirm(cfgs, w) && l.i < |cfgs| && l.Act?
    requires w.insts[l.i].phase.Calling? && w.insts[l.i].phase.todo != []
    ensures AllFirm(cfgs, Next(cfgs, w, l))
  {
    var cfg, x, w' := cfgs[l.i], w.insts[l.i], Next(cfgs, w, l);
    CallFirm(cfgs, w, l);
    CalledParts(cfg, w.store, x, x.phase.index, x.phase.existing, x.phase.todo, x.phase.known, l.env);
    RestAdvances(cfg, w'.store, x.phase.index, x.phase.existing, x.phase.todo, x.phase.known,
      w'.insts[l.i].phase.known);
    AllFirmAfter(cfgs, World(w'.store, w.insts), l.i, w'.insts[l.i]);
  }

  lemma FirmStep(cfgs: seq<Config>, w: World, l: Label)
    requires Fleet(cfgs) && NoLawfulClash(cfgs) && AllFirm(cfgs, w) && Plans(cfgs, w, l)
    ensures AllFirm(cfgs, Next(cfgs, w, l))
  {
    if l.i < |cfgs| {
      var w' := Next(cfgs, w, l);
      if l.Crash? {
        AdvancesToIdle(cfgs[l.i], w.store, w.insts[l.i].phase);
        AllFirmAfter(cfgs, w, l.i, w'.insts[l.i]);
      } else if w.insts[l.i].phase.Calling? && w.insts[l.i].phase.todo != [] {
        CalledFirm(cfgs, w, l);
      } else {
        QuietAdvances(cfgs, w, l);
        AllFirmAfter(cfgs, w, l.i, w'.insts[l.i]);
      }
    }
  }

  /** Every instance stays firm through lawful steps of any of them, crashes, and routes made outside. */
  lemma FirmEvent(cfgs: seq<Config>, w: World, e: Event)
    requires Fleet(cfgs) && NoLawfulClash(cfgs) && AllFirm(cfgs, w) && LawfulEvent(cfgs, w, e)
    ensures AllFirm(cfgs, Happen(cfgs, w, e))
  {
    match e
    case ByInstance(l) => FirmStep(cfgs, w, l);
    case Made(_, _, _) =>
      PerformLocal(w.store, Making(e), Works);
      forall k | 0 <= k < |cfgs|
        ensures Proper(cfgs[k], Happen(cfgs, w, e).store, w.insts[k].phase)
        ensures Grasps(cfgs, w.insts, Happen(cfgs, w, e).store, k)
      {
        FirmUnderMaking(cfgs, w.insts, w.store, Making(e), k);
      }
  }

  lemma {:induction false} FirmRun(cfgs: seq<Config>, w: World, es: seq<Event>)
    requires Fleet(cfgs) && NoLawfulClash(cfgs) && AllFirm(cfgs, w) && LawfulEvents(cfgs, w, es)
    ensures AllFirm(cfgs, Unfold(cfgs, w, es))
    decreases |es|
  {
    if es != [] {
      FirmEvent(cfgs, w, es[0]);
      FirmRun(cfgs, Happen(cfgs, w, es[0]), es[1..]);
    }
  }

  lemma FreshIsFirm(cfgs: seq<Config>, w: World)
    requires WellNumbered(cfgs, w) && Fresh(w)
    ensures AllFirm(cfgs, w)
  {
    assert forall k :: 0 <= k < |cfgs| ==> FreshInst(w.insts[k]);
  }

  lemma FirmSpares(cfgs: seq<Config>, w: World, l: Label)
    requires Fleet(cfgs) && AllFirm(cfgs, w)
    ensures Spares(cfgs, w, l)
  {
    NextStore(cfgs, w, l);
    if CallOf(cfgs, w, l).Some? {
      var c := CallOf(cfgs, w, l).value;
      var reply := l.env(CallOp(KindOf(c)), c.host);
      FirmCallFair(cfgs, w.insts, w.store, l.i, c);
      PerformLocal(w.store, c, reply);
      PerformAtHost(w.store, c, reply);
      if Hits(w.store, c) {
        FairFinds(cfgs, w.insts, w.store, l.i, c);
      }
    }
  }

  /**
   Safety under lawful plans: where no instance claims a route another may act on, no step of any run deletes,
   moves or re-comments a route tagged by an owner other than the acting instance's, though routes appear from
   outside at any moment.
   */
  lemma LawfulPlansSpare(cfgs: seq<Config>, w: World, es: seq<Event>, l: Label)
    requires Fleet(cfgs) && NoLawfulClash(cfgs) && WellNumbered(cfgs, w) && Fresh(w) && LawfulEvents(cfgs, w, es)
    ensures Spares(cfgs, Unfold(cfgs, w, es), l)
  {
    FreshIsFirm(cfgs, w);
    FirmRun(cfgs, w, es);
    FirmSpares(cfgs, Unfold(cfgs, w, es), l);
  }
}
