/**
 No instance touches a route another owner has tagged, in any run, at the grain of single API calls,
 although every instance acts on an index it read earlier.
 */
module Safety {
  import opened Wrappers
  import opened Text
  import opened Resolver
  import opened Routes
  import opened Reconcile
  import opened Protocol

  /** Whether this instance may claim an untagged route for the host. */
  predicate Claims(cfg: Config, h: string) {
    && !cfg.dryRun && cfg.adopt && cfg.matches(h) && Resolve(cfg.resolver, h).Some?
    && !(cfg.coredns && '*' in h)
  }

  /** Whether this instance may act on an untagged route for the host on this tunnel. */
  predicate Grabs(cfg: Config, h: string, t: string) {
    && !cfg.dryRun && cfg.matches(h) && t in Tunnels(cfg.resolver)
    && (!cfg.strict || (Claims(cfg, h) && Resolve(cfg.resolver, h) == Some(t)))
  }

  /** Two instances may act on the same untagged route, and one of them claims such routes. */
  predicate Clash(a: Config, b: Config, h: string, t: string) {
    Claims(a, h) && Grabs(a, h, t) && Grabs(b, h, t)
  }

  ghost predicate NoClash(cfgs: seq<Config>) {
    forall i, j, h, t :: 0 <= i < |cfgs| && 0 <= j < |cfgs| && i != j && IsLower(h) ==> !Clash(cfgs[i], cfgs[j], h, t)
  }

  /** Every instance is well configured and has an owner id of its own. */
  ghost predicate Fleet(cfgs: seq<Config>) {
    && (forall i :: 0 <= i < |cfgs| ==> ValidConfig(cfgs[i]))
    && (forall i, j :: 0 <= i < j < |cfgs| ==> cfgs[i].owner != cfgs[j].owner)
  }

  /** Strict instances that adopt nothing never clash. */
  lemma StrictNeverClash(cfgs: seq<Config>)
    requires forall i :: 0 <= i < |cfgs| ==> !cfgs[i].adopt
    ensures NoClash(cfgs)
  {
  }

  /** Nor do instances that list no tunnel in common, whatever their modes. */
  lemma DisjointNeverClash(cfgs: seq<Config>)
    requires forall i, j, t :: 0 <= i < j < |cfgs| && t in Tunnels(cfgs[i].resolver) ==> t !in Tunnels(cfgs[j].resolver)
    ensures NoClash(cfgs)
  {
  }

  /**
   A route that instance k may still act on: its own, or an untagged one that no other instance can
   claim where it now is. For a claim, the route is still on the tunnel the host resolves to.
   */
  ghost predicate Loose(cfgs: seq<Config>, k: nat, h: string, r: Route, claim: bool)
    requires k < |cfgs|
  {
    && (claim ==> Resolve(cfgs[k].resolver, h) == Some(r.tunnel))
    && match RouteOwner(r.comment)
       case Some(o) => o == cfgs[k].owner
       case None =>
         && (Claims(cfgs[k], h) ==> Grabs(cfgs[k], h, r.tunnel))
         && (forall a :: 0 <= a < |cfgs| && a != k && Claims(cfgs[a], h) ==> !Grabs(cfgs[a], h, r.tunnel))
  }

  /** What instance k may rely on about the live route behind a route it read as r0. */
  ghost predicate Grip(cfgs: seq<Config>, k: nat, s: Store, h: string, r0: Route, claim: bool)
    requires k < |cfgs|
  {
    h in s.live && s.live[h].id == r0.id ==>
      if IsTagged(r0.comment) then Owns(cfgs[k], s.live[h].comment) else Loose(cfgs, k, h, s.live[h], claim)
  }

  /** What was read of a host that the instance may delete or move. */
  ghost predicate Holds(cfg: Config, index: Index, h: string) {
    h in index && cfg.matches(h) && Manageable(cfg, index[h].comment)
  }

  /** What was read of a host that the instance may claim. */
  ghost predicate Claimable(cfg: Config, existing: Index, h: string) {
    && h in existing && Claims(cfg, h) && !IsTagged(existing[h].comment)
    && Resolve(cfg.resolver, h) == Some(existing[h].tunnel)
  }

  /** A call comes from what was read: a delete or retarget from the index, a claim from an untagged route. */
  ghost predicate FromReads(cfg: Config, index: Index, existing: Index, c: Call) {
    match c
    case Delete(h, id) => Holds(cfg, index, h) && id == index[h].id
    case Retarget(h, id, t, m) =>
      Holds(cfg, index, h) && id == index[h].id && m == index[h].comment && Resolve(cfg.resolver, h) == Some(t)
    case Create(h, n, t, m) =>
      h == Lower(n) && cfg.matches(h) && m == Tag(cfg.owner) && Resolve(cfg.resolver, h) == Some(t)
    case Adopt(h, id, m) => Claimable(cfg, existing, h) && id == existing[h].id && m == Tag(cfg.owner)
  }

  ghost predicate AllFromReads(cfg: Config, index: Index, existing: Index, ds: seq<Decision>) {
    forall d :: d in ds && d.Go? ==> FromReads(cfg, index, existing, d.call)
  }

  ghost predicate AllManageable(cfg: Config, index: Index) {
    forall h :: h in index ==> Manageable(cfg, index[h].comment)
  }

  lemma {:induction false} FailuresSkipped(cfg: Config, eps: seq<Endpoint>, ep: Endpoint)
    requires ep in eps && cfg.matches(ep.dns) && Answer(cfg, ep).Failure?
    ensures Key(ep) in Skips(cfg, eps)
  {
    if ep != eps[|eps| - 1] {
      assert ep in eps[..|eps| - 1];
      FailuresSkipped(cfg, eps[..|eps| - 1], ep);
    }
  }

  lemma KeyIgnoresCase(cfg: Config, ep: Endpoint)
    requires ValidConfig(cfg)
    ensures Resolve(cfg.resolver, Key(ep)) == Resolve(cfg.resolver, ep.dns)
    ensures cfg.matches(Key(ep)) == cfg.matches(ep.dns)
  {
    ResolveIgnoresCase(cfg.resolver, ep.dns);
    assert cfg.matches(Lower(ep.dns)) == cfg.matches(ep.dns);
  }

  lemma DeleteFromReads(cfg: Config, index: Index, existing: Index, ep: Endpoint)
    requires ValidConfig(cfg) && AllManageable(cfg, index)
    ensures var d := DecideDelete(cfg, index, ep); d.Go? ==> FromReads(cfg, index, existing, d.call)
  {
    KeyIgnoresCase(cfg, ep);
  }

  lemma UpdateFromReads(cfg: Config, index: Index, existing: Index, ep: Endpoint)
    requires ValidConfig(cfg) && AllManageable(cfg, index)
    ensures var d := DecideUpdate(cfg, index, ep); d.Go? ==> FromReads(cfg, index, existing, d.call)
  {
    KeyIgnoresCase(cfg, ep);
  }

  lemma CreateFromReads(cfg: Config, index: Index, existing: Index, ch: Changes, ep: Endpoint)
    requires ValidConfig(cfg) && !cfg.dryRun && (existing != map[] ==> cfg.adopt) && ep in ch.create
    ensures var d := DecideCreate(cfg, existing, SkippedFor(cfg, ch), ep);
      d.Go? ==> FromReads(cfg, index, existing, d.call)
  {
    KeyIgnoresCase(cfg, ep);
    if cfg.coredns && cfg.matches(ep.dns) && '*' in Key(ep) {
      FailuresSkipped(cfg, ch.create, ep);
    }
  }

  lemma DecisionsFromReads(cfg: Config, index: Index, existing: Index, ch: Changes)
    requires ValidConfig(cfg) && !cfg.dryRun && AllManageable(cfg, index) && (existing != map[] ==> cfg.adopt)
    ensures AllFromReads(cfg, index, existing, Decisions(cfg, index, existing, SkippedFor(cfg, ch), ch))
  {
    forall i | 0 <= i < |ch.delete| {
      DeleteFromReads(cfg, index, existing, ch.delete[i]);
    }
    forall i | 0 <= i < |ch.update| {
      UpdateFromReads(cfg, index, existing, ch.update[i]);
    }
    forall i | 0 <= i < |ch.create| {
      CreateFromReads(cfg, index, existing, ch, ch.create[i]);
    }
    assert AllFromReads(cfg, index, existing, DecideDeletes(cfg, index, ch.delete));
    assert AllFromReads(cfg, index, existing, DecideUpdates(cfg, index, ch.update));
    assert AllFromReads(cfg, index, existing, DecideCreates(cfg, existing, SkippedFor(cfg, ch), ch.create));
  }

  /** What an instance may rely on about what it has read: it acts only within its grip. */
  ghost predicate Footing(cfgs: seq<Config>, k: nat, s: Store, index: Index, existing: Index)
    requires k < |cfgs|
  {
    && PinnedIndex(s, index) && PinnedIndex(s, existing)
    && (!cfgs[k].dryRun ==>
         && AllManageable(cfgs[k], index) && (existing != map[] ==> cfgs[k].adopt)
         && (forall h :: Holds(cfgs[k], index, h) ==> Grip(cfgs, k, s, h, index[h], false))
         && (forall h :: Claimable(cfgs[k], existing, h) ==> Grip(cfgs, k, s, h, existing[h], true)))
  }

  /** What is left of a list of tunnels. */
  ghost predicate Suffix(rest: seq<string>, all: seq<string>) {
    |rest| <= |all| && rest == all[|all| - |rest|..]
  }

  /** What holds of every instance at every moment: it lists its own tunnels, and acts on what it has read. */
  ghost predicate Steady(cfgs: seq<Config>, k: nat, s: Store, p: Phase)
    requires k < |cfgs|
  {
    match p
    case Listing(rest, _) => Suffix(rest, Tunnels(cfgs[k].resolver))
    case Indexing(_, rest, index) => Suffix(rest, Tunnels(cfgs[k].resolver)) && Footing(cfgs, k, s, index, map[])
    case Claiming(_, index, rest, existing) =>
      && Suffix(rest, Tunnels(cfgs[k].resolver)) && (rest != [] ==> cfgs[k].adopt)
      && Footing(cfgs, k, s, index, existing)
    case Writing(_, index, existing) => Footing(cfgs, k, s, index, existing)
    case Calling(index, existing, todo, _) =>
      Footing(cfgs, k, s, index, existing) && (!cfgs[k].dryRun ==> AllFromReads(cfgs[k], index, existing, todo))
    case _ => true
  }

  ghost predicate AllSteady(cfgs: seq<Config>, w: World) {
    && WellNumbered(cfgs, w) && ValidStore(w.store)
    && forall k :: 0 <= k < |cfgs| ==> Steady(cfgs, k, w.store, w.insts[k].phase)
  }

  /** What was just read is in grip: no other instance can claim it. */
  lemma ReadInGrip(cfgs: seq<Config>, k: nat, s: Store, h: string)
    requires Fleet(cfgs) && NoClash(cfgs) && k < |cfgs| && !cfgs[k].dryRun && ValidStore(s)
    requires h in s.live && cfgs[k].matches(h)
    ensures s.live[h].tunnel in Tunnels(cfgs[k].resolver) && Manageable(cfgs[k], s.live[h].comment) ==>
      Grip(cfgs, k, s, h, s.live[h], false)
    ensures
      Claims(cfgs[k], h) && !IsTagged(s.live[h].comment) && Resolve(cfgs[k].resolver, h) == Some(s.live[h].tunnel) ==>
      Grip(cfgs, k, s, h, s.live[h], true)
  {
    var r := s.live[h];
    LowerIdempotent(r.hostname);
    if Resolve(cfgs[k].resolver, h).Some? {
      ResolvesToConfigured(cfgs[k].resolver, h);
    }
    if Grabs(cfgs[k], h, r.tunnel) {
      forall a | 0 <= a < |cfgs| && a != k && Claims(cfgs[a], h)
        ensures !Grabs(cfgs[a], h, r.tunnel)
      {
        assert !Clash(cfgs[a], cfgs[k], h, r.tunnel);
      }
    }
  }

  /** A call by instance p, made within its grip. */
  ghost predicate Rightful(cfgs: seq<Config>, p: nat, s: Store, index: Index, existing: Index, c: Call)
    requires p < |cfgs|
  {
    && !cfgs[p].dryRun && PinnedCall(s, c) && FromReads(cfgs[p], index, existing, c)
    && (c.Delete? || c.Retarget? ==> Grip(cfgs, p, s, c.host, index[c.host], false))
    && (c.Adopt? ==> Grip(cfgs, p, s, c.host, existing[c.host], true))
  }

  lemma SteadyCallRightful(cfgs: seq<Config>, p: nat, s: Store, x: Phase)
    requires p < |cfgs| && Steady(cfgs, p, s, x) && !cfgs[p].dryRun
    requires x.Calling? && x.todo != [] && x.todo[0].Go?
    ensures Rightful(cfgs, p, s, x.index, x.existing, x.todo[0].call)
  {
    assert x.todo[0] in x.todo;
  }

  /** A rightful call finds the live route its caller's own, or untagged and out of everyone else's reach. */
  lemma RightfulFinds(cfgs: seq<Config>, p: nat, s: Store, index: Index, existing: Index, c: Call)
    requires Fleet(cfgs) && p < |cfgs| && Rightful(cfgs, p, s, index, existing, c) && Hits(s, c)
    ensures Loose(cfgs, p, c.host, s.live[c.host], c.Adopt?)
  {
  }

  /**
   A rightful call keeps every grip: each instance's view of the route at the call's host survives
   what the caller does to it.
   */
  lemma GripKept(cfgs: seq<Config>, p: nat, s: Store, index: Index, existing: Index, c: Call, reply: Reply,
    k: nat, h: string, r0: Route, claim: bool)
    requires Fleet(cfgs) && NoClash(cfgs) && p < |cfgs| && k < |cfgs| && ValidStore(s)
    requires Rightful(cfgs, p, s, index, existing, c)
    requires r0.id < s.next && Grip(cfgs, k, s, h, r0, claim)
    requires !cfgs[k].dryRun && cfgs[k].matches(h) && (claim ==> Claims(cfgs[k], h) && !IsTagged(r0.comment))
    requires IsTagged(r0.comment) ==> Owns(cfgs[k], r0.comment)
    requires p == k && !claim && (c.Delete? || c.Retarget?) && c.host == h ==> r0 == index[h]
    ensures Grip(cfgs, k, Perform(s, c, reply).0, h, r0, claim)
  {
    PerformLocal(s, c, reply);
    if h == c.host {
      PerformAtHost(s, c, reply);
      if Hits(s, c) && !reply.Fails? && s.live[h].id == r0.id {
        RightfulFinds(cfgs, p, s, index, existing, c);
        match c
        case Delete(_, _) =>
        case Create(_, _, _, _) =>
        case Adopt(_, _, m) => GripAfterClaim(cfgs, p, s, h, k, r0, claim);
        case Retarget(_, _, t, m) => GripAfterMove(cfgs, p, s, h, t, index[h].comment, k, r0, claim);
      }
    }
  }

  /** Only the claiming instance can have been holding the route. */
  lemma GripAfterClaim(cfgs: seq<Config>, p: nat, s: Store, h: string, k: nat, r0: Route, claim: bool)
    requires Fleet(cfgs) && p < |cfgs| && k < |cfgs| && h in s.live && s.live[h].id == r0.id
    requires Claims(cfgs[p], h) && Loose(cfgs, p, h, s.live[h], true)
    requires Grip(cfgs, k, s, h, r0, claim)
    ensures p == k
    ensures Owns(cfgs[k], Tag(cfgs[p].owner))
  {
  }

  /** A retarget keeps the owner, and takes an untagged route nowhere another instance could claim it. */
  lemma GripAfterMove(cfgs: seq<Config>, p: nat, s: Store, h: string, t: string, m: string, k: nat, r0: Route,
    claim: bool)
    requires Fleet(cfgs) && NoClash(cfgs) && p < |cfgs| && k < |cfgs| && ValidStore(s) && h in s.live
    requires s.live[h].id == r0.id
    requires !cfgs[p].dryRun && cfgs[p].matches(h) && Manageable(cfgs[p], m) && Resolve(cfgs[p].resolver, h) == Some(t)
    requires if IsTagged(m) then Owns(cfgs[p], s.live[h].comment) else Loose(cfgs, p, h, s.live[h], false)
    requires Grip(cfgs, k, s, h, r0, claim) && (claim ==> !IsTagged(r0.comment))
    requires !cfgs[k].dryRun && cfgs[k].matches(h) && (claim ==> Claims(cfgs[k], h))
    requires p == k && !claim ==> r0.comment == m
    requires IsTagged(r0.comment) ==> Owns(cfgs[k], r0.comment)
    ensures var r := s.live[h].(tunnel := if t == "" then s.live[h].tunnel else t,
                                comment := if m == "" then s.live[h].comment else m);
      if IsTagged(r0.comment) then Owns(cfgs[k], r.comment) else Loose(cfgs, k, h, r, claim)
  {
    LowerIdempotent(s.live[h].hostname);
    ResolvesToConfigured(cfgs[p].resolver, h);
    assert t != "";
    if !IsTagged(m) {
      assert Grabs(cfgs[p], h, t);
      forall a | 0 <= a < |cfgs| && a != p && Claims(cfgs[a], h)
        ensures !Grabs(cfgs[a], h, t)
      {
        assert !Clash(cfgs[a], cfgs[p], h, t);
      }
    }
  }

  /** Every instance keeps its footing through any rightful call. */
  lemma FootingUnderCall(cfgs: seq<Config>, p: nat, s: Store, index: Index, existing: Index, c: Call, reply: Reply,
    k: nat, indexK: Index, existingK: Index)
    requires Fleet(cfgs) && NoClash(cfgs) && p < |cfgs| && k < |cfgs| && ValidStore(s)
    requires Rightful(cfgs, p, s, index, existing, c) && Footing(cfgs, k, s, indexK, existingK)
    requires p == k ==> indexK == index
    ensures Footing(cfgs, k, Perform(s, c, reply).0, indexK, existingK)
  {
    var s' := Perform(s, c, reply).0;
    PinnedIndexStable(s, c, reply, indexK);
    PinnedIndexStable(s, c, reply, existingK);
    if !cfgs[k].dryRun {
      forall h | Holds(cfgs[k], indexK, h)
        ensures Grip(cfgs, k, s', h, indexK[h], false)
      {
        GripKept(cfgs, p, s, index, existing, c, reply, k, h, indexK[h], false);
      }
      forall h | Claimable(cfgs[k], existingK, h)
        ensures Grip(cfgs, k, s', h, existingK[h], true)
      {
        GripKept(cfgs, p, s, index, existing, c, reply, k, h, existingK[h], true);
      }
    }
  }

  /** The other instances stay steady through it. */
  lemma SteadyUnderCall(cfgs: seq<Config>, p: nat, s: Store, index: Index, existing: Index, c: Call, reply: Reply,
    k: nat, y: Phase)
    requires Fleet(cfgs) && NoClash(cfgs) && p < |cfgs| && k < |cfgs| && p != k && ValidStore(s)
    requires Rightful(cfgs, p, s, index, existing, c) && Steady(cfgs, k, s, y)
    ensures Steady(cfgs, k, Perform(s, c, reply).0, y)
  {
    match y
    case Indexing(_, _, ik) => FootingUnderCall(cfgs, p, s, index, existing, c, reply, k, ik, map[]);
    case Claiming(_, ik, _, ek) => FootingUnderCall(cfgs, p, s, index, existing, c, reply, k, ik, ek);
    case Writing(_, ik, ek) => FootingUnderCall(cfgs, p, s, index, existing, c, reply, k, ik, ek);
    case Calling(ik, ek, _, _) => FootingUnderCall(cfgs, p, s, index, existing, c, reply, k, ik, ek);
    case _ =>
  }

  lemma PinnedIndexStable(s: Store, c: Call, reply: Reply, index: Index)
    requires ValidStore(s) && PinnedCall(s, c) && PinnedIndex(s, index)
    ensures PinnedIndex(Perform(s, c, reply).0, index)
  {
    forall h | h in index
      ensures Pinned(Perform(s, c, reply).0, h, index[h].id)
    {
      PinnedStable(s, c, reply, h, index[h].id);
    }
  }

  /** Reading one more tunnel keeps the footing. */
  lemma IndexRead(cfgs: seq<Config>, k: nat, s: Store, index: Index, existing: Index, t: string)
    requires Fleet(cfgs) && NoClash(cfgs) && k < |cfgs| && ValidStore(s) && Footing(cfgs, k, s, index, existing)
    requires Lists(cfgs[k], t)
    ensures Footing(cfgs, k, s, index + Selected(cfgs[k], Own, s, [t]), existing)
  {
    var read := Selected(cfgs[k], Own, s, [t]);
    if !cfgs[k].dryRun {
      forall h | Holds(cfgs[k], read, h)
        ensures Grip(cfgs, k, s, h, read[h], false)
      {
        ReadInGrip(cfgs, k, s, h);
      }
    }
  }

  lemma ExistingRead(cfgs: seq<Config>, k: nat, s: Store, index: Index, existing: Index, t: string)
    requires Fleet(cfgs) && NoClash(cfgs) && k < |cfgs| && ValidStore(s) && Footing(cfgs, k, s, index, existing)
    requires cfgs[k].adopt
    ensures Footing(cfgs, k, s, index, existing + Selected(cfgs[k], Any, s, [t]))
  {
    var read := Selected(cfgs[k], Any, s, [t]);
    if !cfgs[k].dryRun {
      forall h | Claimable(cfgs[k], read, h)
        ensures Grip(cfgs, k, s, h, read[h], true)
      {
        ReadInGrip(cfgs, k, s, h);
      }
    }
  }

  lemma SuffixNext(rest: seq<string>, all: seq<string>)
    requires Suffix(rest, all) && rest != []
    ensures rest[0] in all && Suffix(rest[1..], all)
  {
    assert rest[0] == all[|all| - |rest|];
  }

  lemma SteadyBeforePlan(cfgs: seq<Config>, k: nat, s: Store, x: Inst, env: Env, eps: seq<Endpoint>, ch: Changes)
    requires k < |cfgs| && Steady(cfgs, k, s, x.phase)
    requires x.phase.Idle? || x.phase.Listing? || x.phase.Adjusting? || x.phase.Pruning? || x.phase.Planning?
    ensures Steady(cfgs, k, s, NextInst(cfgs[k], s, x, env, eps, ch).1.phase)
  {
    NothingRead(cfgs, k, s);
    if x.phase.Listing? && x.phase.rest != [] {
      SuffixNext(x.phase.rest, Tunnels(cfgs[k].resolver));
    }
  }

  lemma NothingRead(cfgs: seq<Config>, k: nat, s: Store)
    requires k < |cfgs|
    ensures Footing(cfgs, k, s, map[], map[])
  {
  }

  lemma SteadyIndexing(cfgs: seq<Config>, k: nat, s: Store, x: Inst, plan: Changes, rest: seq<string>, index: Index,
    env: Env)
    requires Fleet(cfgs) && NoClash(cfgs) && k < |cfgs| && ValidStore(s)
    requires Footing(cfgs, k, s, index, map[]) && Suffix(rest, Tunnels(cfgs[k].resolver))
    ensures Steady(cfgs, k, s, NextIndexing(cfgs[k], s, x, plan, rest, index, env).phase)
  {
    if rest != [] {
      SteadyIndexRead(cfgs, k, s, plan, index, rest);
    }
  }

  lemma SteadyIndexRead(cfgs: seq<Config>, k: nat, s: Store, plan: Changes, index: Index, rest: seq<string>)
    requires Fleet(cfgs) && NoClash(cfgs) && k < |cfgs| && ValidStore(s)
    requires Footing(cfgs, k, s, index, map[]) && Suffix(rest, Tunnels(cfgs[k].resolver)) && rest != []
    ensures Steady(cfgs, k, s, Indexing(plan, rest[1..], index + Selected(cfgs[k], Own, s, [rest[0]])))
  {
    SuffixNext(rest, Tunnels(cfgs[k].resolver));
    IndexRead(cfgs, k, s, index, map[], rest[0]);
  }

  lemma SteadyClaiming(cfgs: seq<Config>, k: nat, s: Store, x: Inst, plan: Changes, index: Index, rest: seq<string>,
    existing: Index, env: Env)
    requires Fleet(cfgs) && NoClash(cfgs) && k < |cfgs| && ValidStore(s)
    requires Footing(cfgs, k, s, index, existing) && Suffix(rest, Tunnels(cfgs[k].resolver))
    requires (rest != [] ==> cfgs[k].adopt)
    ensures Steady(cfgs, k, s, NextClaiming(cfgs[k], s, x, plan, index, rest, existing, env).phase)
  {
    if rest != [] {
      SteadyClaimRead(cfgs, k, s, plan, index, rest, existing);
    }
  }

  lemma SteadyClaimRead(cfgs: seq<Config>, k: nat, s: Store, plan: Changes, index: Index, rest: seq<string>,
    existing: Index)
    requires Fleet(cfgs) && NoClash(cfgs) && k < |cfgs| && ValidStore(s)
    requires Footing(cfgs, k, s, index, existing) && Suffix(rest, Tunnels(cfgs[k].resolver)) && rest != []
    requires cfgs[k].adopt
    ensures Steady(cfgs, k, s, Claiming(plan, index, rest[1..], existing + Selected(cfgs[k], Any, s, [rest[0]])))
  {
    SuffixNext(rest, Tunnels(cfgs[k].resolver));
    ExistingRead(cfgs, k, s, index, existing, rest[0]);
  }

  lemma SteadyWriting(cfgs: seq<Config>, k: nat, s: Store, x: Inst, plan: Changes, index: Index, existing: Index,
    env: Env)
    requires Fleet(cfgs) && k < |cfgs| && Footing(cfgs, k, s, index, existing)
    ensures Steady(cfgs, k, s, Write(cfgs[k], x, plan, index, existing, env).phase)
  {
    if !cfgs[k].dryRun {
      DecisionsFromReads(cfgs[k], index, existing, plan);
    }
  }

  /** An instance's own step keeps its footing: what it reads it may act on, and it decides from what it read. */
  lemma SteadyOwnStep(cfgs: seq<Config>, k: nat, s: Store, x: Inst, env: Env, eps: seq<Endpoint>, ch: Changes)
    requires Fleet(cfgs) && NoClash(cfgs) && k < |cfgs| && ValidStore(s) && Steady(cfgs, k, s, x.phase)
    ensures Steady(cfgs, k, NextInst(cfgs[k], s, x, env, eps, ch).0, NextInst(cfgs[k], s, x, env, eps, ch).1.phase)
  {
    match x.phase
    case Indexing(plan, rest, index) => SteadyIndexing(cfgs, k, s, x, plan, rest, index, env);
    case Claiming(plan, index, rest, existing) => SteadyClaiming(cfgs, k, s, x, plan, index, rest, existing, env);
    case Writing(plan, index, existing) => SteadyWriting(cfgs, k, s, x, plan, index, existing, env);
    case Calling(_, _, todo, _) =>
      if todo != [] {
        SteadyCalled(cfgs, k, s, x, env);
      }
    case _ => SteadyBeforePlan(cfgs, k, s, x, env, eps, ch);
  }

  lemma SteadyCalled(cfgs: seq<Config>, k: nat, s: Store, x: Inst, env: Env)
    requires Fleet(cfgs) && NoClash(cfgs) && k < |cfgs| && ValidStore(s)
    requires Steady(cfgs, k, s, x.phase) && x.phase.Calling? && x.phase.todo != []
    ensures var (s', x') := Called(cfgs[k], s, x, x.phase.index, x.phase.existing, x.phase.todo, x.phase.known, env);
      Steady(cfgs, k, s', x'.phase)
  {
    var index, existing, todo := x.phase.index, x.phase.existing, x.phase.todo;
    CalledParts(cfgs[k], s, x, index, existing, todo, x.phase.known, env);
    FootingCalled(cfgs, k, s, index, existing, todo[0], env);
    assert forall d :: d in todo[1..] ==> d in todo;
  }

  lemma FootingCalled(cfgs: seq<Config>, k: nat, s: Store, index: Index, existing: Index, d: Decision, env: Env)
    requires Fleet(cfgs) && NoClash(cfgs) && k < |cfgs| && ValidStore(s) && Footing(cfgs, k, s, index, existing)
    requires d.Go? && !cfgs[k].dryRun ==> FromReads(cfgs[k], index, existing, d.call)
    ensures d.Go? && !cfgs[k].dryRun ==>
      Footing(cfgs, k, Perform(s, d.call, env(CallOp(KindOf(d.call)), d.call.host)).0, index, existing)
  {
    if d.Go? && !cfgs[k].dryRun {
      FootingUnderCall(cfgs, k, s, index, existing, d.call, env(CallOp(KindOf(d.call)), d.call.host), k, index,
        existing);
    }
  }

  /** A label's call, if it makes one. */
  function CallOf(cfgs: seq<Config>, w: World, l: Label): Option<Call>
    requires |w.insts| == |cfgs|
  {
    if l.Crash? || l.i >= |cfgs| || cfgs[l.i].dryRun || !w.insts[l.i].phase.Calling? then None
    else
      var todo := w.insts[l.i].phase.todo;
      if todo == [] || !todo[0].Go? then None else Some(todo[0].call)
  }

  lemma NextStore(cfgs: seq<Config>, w: World, l: Label)
    requires WellNumbered(cfgs, w)
    ensures match CallOf(cfgs, w, l)
      case None => Next(cfgs, w, l).store == w.store
      case Some(c) => Next(cfgs, w, l).store == Perform(w.store, c, l.env(CallOp(KindOf(c)), c.host)).0
  {
    if l.i < |cfgs| && l.Act? {
      StoreChangesByCall(cfgs[l.i], w.store, w.insts[l.i], l.env, l.eps, l.ch);
    }
  }

  /** The footing of all instances survives any step of any of them, and any crash. */
  lemma SteadyStep(cfgs: seq<Config>, w: World, l: Label)
    requires Fleet(cfgs) && NoClash(cfgs) && AllSteady(cfgs, w)
    ensures AllSteady(cfgs, Next(cfgs, w, l))
  {
    if l.i < |cfgs| && l.Act? {
      var i, w' := l.i, Next(cfgs, w, l);
      var x := w.insts[i];
      NextStore(cfgs, w, l);
      SteadyOwnStep(cfgs, i, w.store, x, l.env, l.eps, l.ch);
      if CallOf(cfgs, w, l).Some? {
        var c := CallOf(cfgs, w, l).value;
        SteadyCallRightful(cfgs, i, w.store, x.phase);
        PerformLocal(w.store, c, l.env(CallOp(KindOf(c)), c.host));
        forall k | 0 <= k < |cfgs| && k != i
          ensures Steady(cfgs, k, w'.store, w'.insts[k].phase)
        {
          SteadyUnderCall(cfgs, i, w.store, x.phase.index, x.phase.existing, c, l.env(CallOp(KindOf(c)), c.host),
            k, w.insts[k].phase);
        }
      }
    }
  }

  lemma {:induction false} SteadyRun(cfgs: seq<Config>, w: World, ls: seq<Label>)
    requires Fleet(cfgs) && NoClash(cfgs) && AllSteady(cfgs, w)
    ensures AllSteady(cfgs, Run(cfgs, w, ls))
    decreases |ls|
  {
    if ls != [] {
      SteadyStep(cfgs, w, ls[0]);
      SteadyRun(cfgs, Next(cfgs, w, ls[0]), ls[1..]);
    }
  }

  lemma FreshIsSteady(cfgs: seq<Config>, w: World)
    requires WellNumbered(cfgs, w) && Fresh(w)
    ensures AllSteady(cfgs, w)
  {
    assert forall k :: 0 <= k < |cfgs| ==> FreshInst(w.insts[k]);
  }

  /** Every route tagged by an owner other than the acting instance's is live afterwards as it was. */
  ghost predicate Spares(cfgs: seq<Config>, w: World, l: Label)
    requires WellNumbered(cfgs, w)
  {
    l.i < |cfgs| ==>
      forall h ::
        h in w.store.live && IsTagged(w.store.live[h].comment) && !Owns(cfgs[l.i], w.store.live[h].comment) ==>
        h in Next(cfgs, w, l).store.live && Next(cfgs, w, l).store.live[h] == w.store.live[h]
  }

  lemma SteadySpares(cfgs: seq<Config>, w: World, l: Label)
    requires Fleet(cfgs) && NoClash(cfgs) && AllSteady(cfgs, w)
    ensures Spares(cfgs, w, l)
  {
    NextStore(cfgs, w, l);
    if CallOf(cfgs, w, l).Some? {
      var c, s := CallOf(cfgs, w, l).value, w.store;
      var reply := l.env(CallOp(KindOf(c)), c.host);
      var p := w.insts[l.i].phase;
      SteadyCallRightful(cfgs, l.i, s, p);
      PerformLocal(s, c, reply);
      PerformAtHost(s, c, reply);
      if Hits(s, c) {
        RightfulFinds(cfgs, l.i, s, p.index, p.existing, c);
      }
    }
  }

  /**
   Cross-owner safety: where no two instances clash, no step of any run deletes, moves or re-comments
   a route tagged by an owner other than the acting instance's.
   */
  lemma CrossOwnerSafety(cfgs: seq<Config>, w: World, ls: seq<Label>, l: Label)
    requires Fleet(cfgs) && NoClash(cfgs) && WellNumbered(cfgs, w) && Fresh(w)
    ensures Spares(cfgs, Run(cfgs, w, ls), l)
  {
    FreshIsSteady(cfgs, w);
    SteadyRun(cfgs, w, ls);
    SteadySpares(cfgs, Run(cfgs, w, ls), l);
  }

  predicate OwnedAt(cfg: Config, s: Store, h: string) {
    h in s.live && Owns(cfg, s.live[h].comment)
  }

  /** What a rightful call leaves at its host, when it lands: the caller's own route, or one nobody has tagged. */
  lemma RightfulLeaves(cfgs: seq<Config>, p: nat, s: Store, index: Index, existing: Index, c: Call, reply: Reply)
    requires Fleet(cfgs) && p < |cfgs| && ValidStore(s) && Rightful(cfgs, p, s, index, existing, c)
    ensures var s' := Perform(s, c, reply).0;
      c.host in s'.live && AtHostChanged(s, s', c.host) ==>
        !IsTagged(s'.live[c.host].comment) || Owns(cfgs[p], s'.live[c.host].comment)
  {
    PerformAtHost(s, c, reply);
    if Hits(s, c) {
      RightfulFinds(cfgs, p, s, index, existing, c);
    }
  }

  predicate AtHostChanged(s: Store, s': Store, h: string) {
    (h in s.live) != (h in s'.live) || (h in s.live && s.live[h] != s'.live[h])
  }

  /** A rightful call takes, alters and makes no route of another owner. */
  lemma RightfulLeavesOwned(cfgs: seq<Config>, p: nat, s: Store, index: Index, existing: Index, c: Call, reply: Reply,
    k: nat, h: string)
    requires Fleet(cfgs) && p < |cfgs| && k < |cfgs| && k != p && ValidStore(s)
    requires Rightful(cfgs, p, s, index, existing, c)
    ensures var s' := Perform(s, c, reply).0;
      && (OwnedAt(cfgs[k], s', h) <==> OwnedAt(cfgs[k], s, h))
      && (OwnedAt(cfgs[k], s, h) ==> s'.live[h] == s.live[h])
  {
    PerformLocal(s, c, reply);
    RightfulLeaves(cfgs, p, s, index, existing, c, reply);
    if h == c.host && OwnedAt(cfgs[k], s, h) {
      OwnedNotHit(cfgs, p, s, index, existing, c, k);
      PerformAtHost(s, c, reply);
    }
  }

  lemma OwnedNotHit(cfgs: seq<Config>, p: nat, s: Store, index: Index, existing: Index, c: Call, k: nat)
    requires Fleet(cfgs) && p < |cfgs| && k < |cfgs| && k != p && Rightful(cfgs, p, s, index, existing, c)
    requires OwnedAt(cfgs[k], s, c.host)
    ensures !Hits(s, c)
  {
    if Hits(s, c) {
      RightfulFinds(cfgs, p, s, index, existing, c);
    }
  }

  /**
   An owner's routes are its own to change: another instance's step neither takes one, nor alters one,
   nor makes one.
   */
  lemma OthersLeaveOwned(cfgs: seq<Config>, w: World, l: Label, k: nat, h: string)
    requires Fleet(cfgs) && NoClash(cfgs) && AllSteady(cfgs, w) && k < |cfgs| && k != l.i
    ensures OwnedAt(cfgs[k], Next(cfgs, w, l).store, h) <==> OwnedAt(cfgs[k], w.store, h)
    ensures OwnedAt(cfgs[k], w.store, h) ==> Next(cfgs, w, l).store.live[h] == w.store.live[h]
  {
    NextStore(cfgs, w, l);
    if CallOf(cfgs, w, l).Some? {
      var c, p := CallOf(cfgs, w, l).value, w.insts[l.i].phase;
      SteadyCallRightful(cfgs, l.i, w.store, p);
      RightfulLeavesOwned(cfgs, l.i, w.store, p.index, p.existing, c, l.env(CallOp(KindOf(c)), c.host), k, h);
    }
  }

  /** So the index a strict instance reads cannot go stale through others' steps. */
  lemma StrictIndexStaysTrue(cfgs: seq<Config>, w: World, l: Label, k: nat, ts: seq<string>)
    requires Fleet(cfgs) && NoClash(cfgs) && AllSteady(cfgs, w) && k < |cfgs| && k != l.i && cfgs[k].strict
    ensures Selected(cfgs[k], Own, Next(cfgs, w, l).store, ts) == Selected(cfgs[k], Own, w.store, ts)
  {
    forall h
      ensures OwnedAt(cfgs[k], Next(cfgs, w, l).store, h) <==> OwnedAt(cfgs[k], w.store, h)
      ensures OwnedAt(cfgs[k], w.store, h) ==> Next(cfgs, w, l).store.live[h] == w.store.live[h]
    {
      OthersLeaveOwned(cfgs, w, l, k, h);
    }
    assert forall r: Route :: Eligible(cfgs[k], Own, r) <==> Owns(cfgs[k], r.comment);
  }
}
