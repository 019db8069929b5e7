/**
 One failure-free reconciliation repairs both legs, from any account, any fragment and any memory of
 earlier runs; the next one then changes nothing.
 */
module Stabilise {
  import opened Wrappers
  import opened Text
  import opened Sorting
  import opened FragmentCodec
  import opened FragmentStore
  import opened Resolver
  import opened Routes
  import opened Reconcile
  import opened Endpoints
  import opened PerHost
  import opened ProviderEngine

  // The planner's contract under the sync policy.

  ghost predicate HasKey(eps: seq<Endpoint>, h: string) {
    exists i :: 0 <= i < |eps| && Key(eps[i]) == h
  }

  /** Whether Records, having seen these routes, reports the host. */
  predicate InReport(cfg: Config, seen: Index, h: string) {
    h in seen && cfg.matches(h)
  }

  /**
   Create what is desired and not current, delete what is current and not desired, update what is
   both but with another target. Updates for other reasons may be planned too.
   */
  ghost predicate IsPlanOf(cfg: Config, seen: Index, desired: seq<Endpoint>, ch: Changes) {
    && OneChangeEach(ch)
    && (forall h :: HasKey(ch.create, h) <==> HasKey(desired, h) && !InReport(cfg, seen, h))
    && (forall h :: HasKey(ch.delete, h) <==> !HasKey(desired, h) && InReport(cfg, seen, h))
    && (forall h :: HasKey(ch.update, h) ==> HasKey(desired, h) && InReport(cfg, seen, h))
    && (forall ep :: ep in desired && InReport(cfg, seen, Key(ep)) && Target(seen[Key(ep)].tunnel) != ep.target ==>
          HasKey(ch.update, Key(ep)))
    && (forall ep :: ep in ch.create ==> ep in desired)
  }

  /** A plan made from a complete and current view of the account. */
  ghost predicate IsPlan(cfg: Config, s: Store, desired: seq<Endpoint>, ch: Changes) {
    IsPlanOf(cfg, OwnedIndex(cfg, s), desired, ch)
  }

  /** Each desired host has its own Service, with a well-formed label that fits the fragment. */
  ghost predicate GoodDesire(cfg: Config, desired: seq<Endpoint>) {
    && DistinctKeys(desired) && Writable(cfg, desired)
    && forall ep :: ep in desired ==> Answer(cfg, ep).Success?
  }

  /** No desired name is held by a route this instance cannot see or may not manage. */
  ghost predicate NoForeignHolder(cfg: Config, s: Store, desired: seq<Endpoint>) {
    forall h :: HasKey(desired, h) && h in s.live ==> h in OwnedIndex(cfg, s)
  }

  /** The wanted tunnel of every desired host. */
  ghost predicate RoutedAsDesired(cfg: Config, s: Store, desired: seq<Endpoint>) {
    && (forall h :: h in Reported(cfg, s) <==> HasKey(desired, h))
    && (forall ep :: ep in desired && Key(ep) in s.live ==>
          Some(s.live[Key(ep)].tunnel) == Resolve(cfg.resolver, ep.dns))
  }

  /** The fragment says exactly what is wanted, on the hosts this instance is configured for. */
  ghost predicate AnsweredAsDesired(cfg: Config, m: Rewrites, desired: seq<Endpoint>) {
    && (forall h :: cfg.matches(h) && Resolve(cfg.resolver, h).Some? ==> (h in m <==> HasKey(desired, h)))
    && (forall ep :: ep in desired && Key(ep) in m ==> Success(m[Key(ep)]) == Answer(cfg, ep))
  }

  // The pieces of a batch, read host by host.

  lemma {:induction false} AddsAt(cfg: Config, eps: seq<Endpoint>, h: string)
    ensures h in Adds(cfg, eps) ==> HasKey(eps, h)
    ensures h in Adds(cfg, eps) ==>
      exists i :: 0 <= i < |eps| && Key(eps[i]) == h && Answer(cfg, eps[i]) == Success(Adds(cfg, eps)[h])
  {
    if eps != [] {
      var front := eps[..|eps| - 1];
      AddsAt(cfg, front, h);
      if h in Adds(cfg, front) {
        var i :| 0 <= i < |front| && Key(front[i]) == h && Answer(cfg, front[i]) == Success(Adds(cfg, front)[h]);
        assert eps[i] == front[i];
      }
    }
  }

  lemma {:induction false} AddsOf(cfg: Config, eps: seq<Endpoint>, i: nat)
    requires i < |eps| && cfg.matches(eps[i].dns) && Answer(cfg, eps[i]).Success? && DistinctKeys(eps)
    ensures Key(eps[i]) in Adds(cfg, eps) && Adds(cfg, eps)[Key(eps[i])] == Answer(cfg, eps[i]).value
  {
    if i < |eps| - 1 {
      AddsOf(cfg, eps[..|eps| - 1], i);
    }
  }

  lemma {:induction false} NoSkips(cfg: Config, eps: seq<Endpoint>)
    requires forall i :: 0 <= i < |eps| ==> Answer(cfg, eps[i]).Success?
    ensures Skips(cfg, eps) == map[]
  {
    if eps != [] {
      NoSkips(cfg, eps[..|eps| - 1]);
    }
  }

  lemma {:induction false} RemovesAt(cfg: Config, eps: seq<Endpoint>, h: string)
    requires forall i :: 0 <= i < |eps| ==> cfg.matches(eps[i].dns)
    ensures h in Removes(cfg, eps) <==> HasKey(eps, h)
  {
    if eps != [] {
      var front, last := eps[..|eps| - 1], eps[|eps| - 1];
      RemovesAt(cfg, front, h);
      assert forall i :: 0 <= i < |front| ==> eps[i] == front[i];
      assert HasKey(eps, h) <==> HasKey(front, h) || Key(last) == h;
    }
  }

  lemma {:induction false} AdjustElements(cfg: Config, eps: seq<Endpoint>)
    ensures forall ep :: ep in Adjust(cfg, eps) ==> cfg.matches(ep.dns)
    ensures forall ep :: ep in Adjust(cfg, eps) ==> Resolve(cfg.resolver, ep.dns).Some?
    ensures forall ep :: ep in Adjust(cfg, eps) ==> ep.target == Target(Resolve(cfg.resolver, ep.dns).value)
  {
    if eps != [] {
      AdjustElements(cfg, eps[..|eps| - 1]);
    }
  }

  lemma KeysAre(eps: seq<Endpoint>)
    ensures forall h :: h in Keys(eps) <==> HasKey(eps, h)
    ensures forall ep :: ep in eps ==> HasKey(eps, Key(ep))
  {
  }

  /** Of two endpoints with distinct keys, the key finds the endpoint. */
  lemma KeyFinds(eps: seq<Endpoint>, a: Endpoint, b: Endpoint)
    requires DistinctKeys(eps) && a in eps && b in eps && Key(a) == Key(b)
    ensures a == b
  {
    var i :| 0 <= i < |eps| && eps[i] == a;
    var j :| 0 <= j < |eps| && eps[j] == b;
  }

  // The in-cluster leg.

  ghost predicate RealRun(cfg: Config, env: Env) {
    ValidConfig(cfg) && AllWorks(env) && !cfg.dryRun && cfg.coredns
  }

  lemma LegWorks(cfg: Config, env: Env, stage: Stage, m: Rewrites, ch: Changes)
    requires RealRun(cfg, env)
    ensures FragmentLeg(cfg, env, stage, m, ch).ok
    ensures FragmentLeg(cfg, env, stage, m, ch).after == Edited(m, Adds(cfg, ch.create), Removes(cfg, ch.delete))
    ensures FragmentLeg(cfg, env, stage, m, ch).wrote ==> FragmentLeg(cfg, env, stage, m, ch).after != m
  {
    assert Edited(m, map[], []) == m;
  }

  lemma PruneWorks(cfg: Config, env: Env, m: Rewrites, owned: set<string>, desired: set<string>)
    requires RealRun(cfg, env) && cfg.prune
    ensures PruneLeg(cfg, env, m, true, owned, desired).after == m - Stale(cfg, m, owned, desired)
    ensures PruneLeg(cfg, env, m, true, owned, desired).wrote ==> Stale(cfg, m, owned, desired) != {}
  {
    var gone := Stale(cfg, m, owned, desired);
    if gone == {} {
      assert m - gone == m;
    } else {
      RemovalWorks(env, m, gone);
    }
  }

  lemma RemovalWorks(env: Env, m: Rewrites, gone: set<string>)
    requires AllWorks(env)
    ensures EditFragment(env, Stage.Pruning, m, map[], SortSet(gone)).after == m - gone
  {
    EditedRemoval(m, gone);
  }

  /** The repair's rewrites: every desired host already routed, at its own Service. */
  lemma RepairAdds(cfg: Config, desired: seq<Endpoint>, hosts: set<string>)
    requires GoodDesire(cfg, desired)
    requires forall ep :: ep in desired ==> cfg.matches(ep.dns)
    ensures Skips(cfg, Existing(desired, hosts)) == map[]
    ensures forall h :: h in Adds(cfg, Existing(desired, hosts)) ==> HasKey(desired, h)
    ensures forall ep :: ep in desired && Key(ep) in hosts ==>
      Key(ep) in Adds(cfg, Existing(desired, hosts)) && Adds(cfg, Existing(desired, hosts))[Key(ep)] ==
        Answer(cfg, ep).value
  {
    var eps := Existing(desired, hosts);
    ExistingAt(desired, hosts);
    AddsExactly(cfg, eps);
    forall h | HasKey(eps, h)
      ensures HasKey(desired, h)
    {
      var i :| 0 <= i < |eps| && Key(eps[i]) == h;
      assert eps[i] in eps;
      KeysAre(desired);
    }
  }

  /** After AdjustEndpoints: routed desired hosts are answered, and nothing stale is left. */
  lemma AdjustRepairs(cfg: Config, env: Env, s: Store, m: Rewrites, pending: map<string, Reason>, eps: seq<Endpoint>)
    requires RealRun(cfg, env) && cfg.prune
    requires GoodDesire(cfg, Adjust(cfg, eps))
    ensures var desired := Adjust(cfg, eps);
      var a := AdjustLeg(cfg, env, m, pending, Reported(cfg, s), true, OwnedIndex(cfg, s).Keys, eps);
      && a.ok && a.pending == Retain(pending, Keys(desired))
      && (forall ep :: ep in desired && Key(ep) in Reported(cfg, s) ==>
            Key(ep) in a.rewrites && a.rewrites[Key(ep)] == Answer(cfg, ep).value)
      && (forall h :: h in a.rewrites && !HasKey(desired, h) && cfg.matches(h) && Resolve(cfg.resolver, h).Some? ==>
            h in OwnedIndex(cfg, s))
      && (var repaired := Edited(m, Adds(cfg, Existing(desired, Reported(cfg, s))), []);
          repaired == m && Stale(cfg, m, OwnedIndex(cfg, s).Keys, Keys(desired)) == {} ==>
            a.writes == 0 && a.rewrites == m)
  {
    var desired, hosts, owned := Adjust(cfg, eps), Reported(cfg, s), OwnedIndex(cfg, s).Keys;
    AdjustElements(cfg, eps);
    KeysAre(desired);
    RepairAdds(cfg, desired, hosts);
    var ch := Repair(cfg, eps, hosts);
    LegWorks(cfg, env, Reconciling, m, ch);
    var repaired := Edited(m, Adds(cfg, ch.create), []);
    PruneWorks(cfg, env, repaired, owned, Keys(desired));
  }

  // The routes.

  ghost predicate IsBatch(cfg: Config, env: Env, s: Store, ch: Changes) {
    RealRun(cfg, env) && ValidStore(s) && OneChangeEach(ch) && SkippedFor(cfg, ch) == map[]
  }

  ghost function After(cfg: Config, env: Env, s: Store, pending: map<string, Reason>, ch: Changes): Progress {
    RunAll(cfg, env, Begun(cfg, s, pending, ch), DecisionsFor(cfg, s, ch))
  }

  lemma DecisionsAt(cfg: Config, s: Store, ch: Changes)
    ensures var ds := DecisionsFor(cfg, s, ch);
      && |ds| == |ch.delete| + |ch.update| + |ch.create|
      && (forall i :: 0 <= i < |ch.delete| ==> ds[i] == DecideDelete(cfg, IndexFor(cfg, s, ch), ch.delete[i]))
      && (forall i :: 0 <= i < |ch.update| ==>
           ds[|ch.delete| + i] == DecideUpdate(cfg, IndexFor(cfg, s, ch), ch.update[i]))
      && (forall i :: 0 <= i < |ch.create| ==>
           ds[|ch.delete| + |ch.update| + i] ==
             DecideCreate(cfg, ExistingFor(cfg, s, ch), SkippedFor(cfg, ch), ch.create[i]))
  {
  }

  /** The decision at a place, by the list its change came from. */
  lemma DecisionAt(cfg: Config, s: Store, ch: Changes, k: nat)
    requires k < |DecisionsFor(cfg, s, ch)|
    ensures var (d, u) := (|ch.delete|, |ch.update|);
      && |DecisionsFor(cfg, s, ch)| == d + u + |ch.create|
      && DecisionsFor(cfg, s, ch)[k] ==
        (if k < d then DecideDelete(cfg, IndexFor(cfg, s, ch), ch.delete[k])
         else if k < d + u then DecideUpdate(cfg, IndexFor(cfg, s, ch), ch.update[k - d])
         else DecideCreate(cfg, ExistingFor(cfg, s, ch), SkippedFor(cfg, ch), ch.create[k - d - u]))
  {
    var ds, d, u := DecisionsFor(cfg, s, ch), |ch.delete|, |ch.update|;
    DecisionsAt(cfg, s, ch);
    if d <= k < d + u {
      assert ds[d + (k - d)] == DecideUpdate(cfg, IndexFor(cfg, s, ch), ch.update[k - d]);
    } else if k >= d + u {
      assert ds[d + u + (k - d - u)] ==
        DecideCreate(cfg, ExistingFor(cfg, s, ch), SkippedFor(cfg, ch), ch.create[k - d - u]);
    }
  }

  /** The route at a call's host ends as that call leaves it. */
  lemma HereAt(cfg: Config, env: Env, s: Store, pending: map<string, Reason>, ch: Changes, k: nat, c: Call)
    requires IsBatch(cfg, env, s, ch) && k < |DecisionsFor(cfg, s, ch)| && DecisionsFor(cfg, s, ch)[k] == Go(c)
    ensures var q := After(cfg, env, s, pending, ch);
      var (shape, out) := Fate(AtHost(s, c.host), c, env(CallOp(KindOf(c)), c.host));
      ShapeOf(AtHost(q.store, c.host)) == shape && (out.Done? && c.Create? ==> c.host !in q.pending)
  {
    BatchPinned(cfg, s, ch);
    DecisionHosts(cfg, IndexFor(cfg, s, ch), ExistingFor(cfg, s, ch), SkippedFor(cfg, ch), ch);
    RunAllHere(cfg, env, Begun(cfg, s, pending, ch), DecisionsFor(cfg, s, ch), k);
  }

  lemma DeleteDecided(cfg: Config, s: Store, ch: Changes, i: nat)
    requires i < |ch.delete| && Key(ch.delete[i]) in Reported(cfg, s) && cfg.matches(ch.delete[i].dns)
    ensures var h := Key(ch.delete[i]);
      DecideDelete(cfg, IndexFor(cfg, s, ch), ch.delete[i]) == Go(Delete(h, s.live[h].id))
  {
  }

  /** A deleted host's route is gone. */
  lemma DeletedHost(cfg: Config, env: Env, s: Store, pending: map<string, Reason>, ch: Changes, i: nat)
    requires IsBatch(cfg, env, s, ch) && i < |ch.delete| && Key(ch.delete[i]) in Reported(cfg, s)
    ensures Key(ch.delete[i]) !in After(cfg, env, s, pending, ch).store.live
  {
    var h := Key(ch.delete[i]);
    DecisionsAt(cfg, s, ch);
    assert cfg.matches(Lower(ch.delete[i].dns)) == cfg.matches(ch.delete[i].dns);
    DeleteDecided(cfg, s, ch, i);
    HereAt(cfg, env, s, pending, ch, i, Delete(h, s.live[h].id));
  }

  /** An updated host's route is on the wanted tunnel, under the same hostname and comment. */
  lemma UpdatedHost(cfg: Config, env: Env, s: Store, pending: map<string, Reason>, ch: Changes, i: nat)
    requires IsBatch(cfg, env, s, ch) && i < |ch.update| && Key(ch.update[i]) in Reported(cfg, s)
    requires Resolve(cfg.resolver, ch.update[i].dns).Some?
    ensures var h := Key(ch.update[i]);
      ShapeOf(AtHost(After(cfg, env, s, pending, ch).store, h)) ==
        Some(Shape(s.live[h].hostname, Resolve(cfg.resolver, ch.update[i].dns).value, s.live[h].comment))
  {
    var d := DecideUpdate(cfg, IndexFor(cfg, s, ch), ch.update[i]);
    ResolvesToConfigured(cfg.resolver, ch.update[i].dns);
    DecisionsAt(cfg, s, ch);
    if d.Go? {
      HereAt(cfg, env, s, pending, ch, |ch.delete| + i, d.call);
    } else {
      StayingHost(cfg, env, s, pending, ch, i);
    }
  }

  /** The decision on an update stands behind those on the deletes. */
  lemma UpdateAt(cfg: Config, s: Store, ch: Changes, i: nat)
    requires i < |ch.update|
    ensures |ch.delete| + i < |DecisionsFor(cfg, s, ch)|
    ensures DecisionsFor(cfg, s, ch)[|ch.delete| + i] == DecideUpdate(cfg, IndexFor(cfg, s, ch), ch.update[i])
  {
    DecisionsAt(cfg, s, ch);
  }

  lemma NoneForStaying(cfg: Config, s: Store, ch: Changes, i: nat)
    requires OneChangeEach(ch) && i < |ch.update| && !DecideUpdate(cfg, IndexFor(cfg, s, ch), ch.update[i]).Go?
    ensures forall d :: d in DecisionsFor(cfg, s, ch) ==> !ForHost(d, Key(ch.update[i]))
  {
    UpdateAt(cfg, s, ch, i);
    DecisionHosts(cfg, IndexFor(cfg, s, ch), ExistingFor(cfg, s, ch), SkippedFor(cfg, ch), ch);
    UpdatePlace(ch, i);
    OthersElsewhere(ch, DecisionsFor(cfg, s, ch), |ch.delete| + i, Key(ch.update[i]));
  }

  lemma UpdatePlace(ch: Changes, i: nat)
    requires i < |ch.update|
    ensures (ch.delete + ch.update + ch.create)[|ch.delete| + i] == ch.update[i]
  {
  }

  /** A host whose update asks for none stays as it is. */
  lemma StayingHost(cfg: Config, env: Env, s: Store, pending: map<string, Reason>, ch: Changes, i: nat)
    requires IsBatch(cfg, env, s, ch) && i < |ch.update|
    requires !DecideUpdate(cfg, IndexFor(cfg, s, ch), ch.update[i]).Go?
    ensures AtHost(After(cfg, env, s, pending, ch).store, Key(ch.update[i])) == AtHost(s, Key(ch.update[i]))
  {
    BatchPinned(cfg, s, ch);
    NoneForStaying(cfg, s, ch, i);
    RunAllElsewhere(cfg, env, Begun(cfg, s, pending, ch), DecisionsFor(cfg, s, ch), Key(ch.update[i]));
  }

  /** A created host has this instance's route on the resolved tunnel, and waits for nothing. */
  lemma CreatedHost(cfg: Config, env: Env, s: Store, pending: map<string, Reason>, ch: Changes, i: nat)
    requires IsBatch(cfg, env, s, ch) && i < |ch.create| && Key(ch.create[i]) !in s.live
    requires cfg.matches(ch.create[i].dns) && Resolve(cfg.resolver, ch.create[i].dns).Some?
    ensures var q, h := After(cfg, env, s, pending, ch), Key(ch.create[i]);
      ShapeOf(AtHost(q.store, h)) ==
        Some(Shape(ch.create[i].dns, Resolve(cfg.resolver, ch.create[i].dns).value, Tag(cfg.owner)))
      && h !in q.pending
  {
    var ep := ch.create[i];
    DecisionsAt(cfg, s, ch);
    NotExisting(cfg, s, ch, Key(ep));
    HereAt(cfg, env, s, pending, ch, |ch.delete| + |ch.update| + i,
      Create(Key(ep), ep.dns, Resolve(cfg.resolver, ep.dns).value, Tag(cfg.owner)));
  }

  /** A free name is in no index. */
  lemma NotExisting(cfg: Config, s: Store, ch: Changes, h: string)
    requires h !in s.live
    ensures h !in ExistingFor(cfg, s, ch) && h !in IndexFor(cfg, s, ch)
  {
  }

  lemma OthersElsewhere(ch: Changes, ds: seq<Decision>, k: nat, h: string)
    requires var all := ch.delete + ch.update + ch.create;
      && |ds| == |all| && k < |all| && Key(all[k]) == h && OneChangeEach(ch)
      && (forall i :: 0 <= i < |ds| && ds[i].Go? ==> ds[i].call.host == Key(all[i]))
    requires !ds[k].Go?
    ensures forall d :: d in ds ==> !ForHost(d, h)
  {
    forall d | d in ds
      ensures !ForHost(d, h)
    {
      var i :| 0 <= i < |ds| && ds[i] == d;
    }
  }

  /** A host the batch does not mention keeps its route and its pending state. */
  lemma UnmentionedHost(cfg: Config, env: Env, s: Store, pending: map<string, Reason>, ch: Changes, h: string)
    requires IsBatch(cfg, env, s, ch)
    requires !HasKey(ch.delete, h) && !HasKey(ch.update, h) && !HasKey(ch.create, h)
    ensures AtHost(After(cfg, env, s, pending, ch).store, h) == AtHost(s, h)
    ensures SamePending(After(cfg, env, s, pending, ch).pending, pending, h)
  {
    var ds, all := DecisionsFor(cfg, s, ch), ch.delete + ch.update + ch.create;
    BatchPinned(cfg, s, ch);
    DecisionHosts(cfg, IndexFor(cfg, s, ch), ExistingFor(cfg, s, ch), SkippedFor(cfg, ch), ch);
    forall d | d in ds
      ensures !ForHost(d, h)
    {
      var i :| 0 <= i < |ds| && ds[i] == d;
      assert all[i] in ch.delete || all[i] in ch.update || all[i] in ch.create;
    }
    RunAllElsewhere(cfg, env, Begun(cfg, s, pending, ch), ds, h);
  }

  /** What this instance may manage on a listed tunnel, inside its filter. */
  predicate ReportedRoute(cfg: Config, h: string, r: Option<Shape>) {
    r.Some? && Lists(cfg, r.value.tunnel) && Manageable(cfg, r.value.comment) && cfg.matches(h)
  }

  lemma ReportedByShape(cfg: Config, s: Store, h: string)
    ensures h in Reported(cfg, s) <==> ReportedRoute(cfg, h, ShapeOf(AtHost(s, h)))
  {
  }

  ghost predicate SyncBatch(cfg: Config, env: Env, s: Store, eps: seq<Endpoint>, ch: Changes) {
    && IsBatch(cfg, env, s, ch) && IsPlan(cfg, s, Adjust(cfg, eps), ch)
    && NoForeignHolder(cfg, s, Adjust(cfg, eps)) && DistinctKeys(Adjust(cfg, eps))
  }

  /** The desired host's route is one this instance reports, on the tunnel the name resolves to. */
  predicate Settles(cfg: Config, s: Store, ep: Endpoint) {
    Key(ep) in Reported(cfg, s) && Some(s.live[Key(ep)].tunnel) == Resolve(cfg.resolver, ep.dns)
  }

  lemma SettlesByShape(cfg: Config, s: Store, ep: Endpoint, r: Shape)
    requires ValidConfig(cfg) && ShapeOf(AtHost(s, Key(ep))) == Some(r)
    requires Resolve(cfg.resolver, ep.dns) == Some(r.tunnel) && Manageable(cfg, r.comment) && cfg.matches(ep.dns)
    ensures Settles(cfg, s, ep)
  {
    ReportedByShape(cfg, s, Key(ep));
    ResolvesToConfigured(cfg.resolver, ep.dns);
    assert cfg.matches(Lower(ep.dns)) == cfg.matches(ep.dns);
  }

  lemma CreateSettles(cfg: Config, env: Env, s: Store, pending: map<string, Reason>, eps: seq<Endpoint>, ch: Changes,
    ep: Endpoint)
    requires SyncBatch(cfg, env, s, eps, ch) && ep in Adjust(cfg, eps) && HasKey(ch.create, Key(ep))
    ensures Settles(cfg, After(cfg, env, s, pending, ch).store, ep)
  {
    var i :| 0 <= i < |ch.create| && Key(ch.create[i]) == Key(ep);
    assert ch.create[i] in ch.create;
    KeyFinds(Adjust(cfg, eps), ep, ch.create[i]);
    UnheldCreate(cfg, env, s, eps, ch, i);
    CreatedHost(cfg, env, s, pending, ch, i);
    SettlesByShape(cfg, After(cfg, env, s, pending, ch).store, ep,
      Shape(ep.dns, Resolve(cfg.resolver, ep.dns).value, Tag(cfg.owner)));
  }

  lemma UpdateSettles(cfg: Config, env: Env, s: Store, pending: map<string, Reason>, eps: seq<Endpoint>, ch: Changes,
    ep: Endpoint)
    requires SyncBatch(cfg, env, s, eps, ch) && ep in Adjust(cfg, eps) && HasKey(ch.update, Key(ep))
    ensures Settles(cfg, After(cfg, env, s, pending, ch).store, ep)
  {
    var i :| 0 <= i < |ch.update| && Key(ch.update[i]) == Key(ep);
    AdjustElements(cfg, eps);
    ResolveIgnoresCase(cfg.resolver, ch.update[i].dns);
    ResolveIgnoresCase(cfg.resolver, ep.dns);
    UpdatedHost(cfg, env, s, pending, ch, i);
    var r := s.live[Key(ep)];
    SettlesByShape(cfg, After(cfg, env, s, pending, ch).store, ep,
      Shape(r.hostname, Resolve(cfg.resolver, ep.dns).value, r.comment));
  }

  lemma RestSettles(cfg: Config, env: Env, s: Store, pending: map<string, Reason>, eps: seq<Endpoint>, ch: Changes,
    ep: Endpoint)
    requires SyncBatch(cfg, env, s, eps, ch) && ep in Adjust(cfg, eps)
    requires !HasKey(ch.create, Key(ep)) && !HasKey(ch.update, Key(ep))
    ensures Settles(cfg, After(cfg, env, s, pending, ch).store, ep)
  {
    AdjustElements(cfg, eps);
    KeysAre(Adjust(cfg, eps));
    UnmentionedHost(cfg, env, s, pending, ch, Key(ep));
    var r := s.live[Key(ep)];
    TargetInjective(r.tunnel, Resolve(cfg.resolver, ep.dns).value);
    SettlesByShape(cfg, After(cfg, env, s, pending, ch).store, ep, Shape(r.hostname, r.tunnel, r.comment));
  }

  /** A desired host ends on its resolved tunnel, under this instance's management. */
  lemma DesiredSettles(cfg: Config, env: Env, s: Store, pending: map<string, Reason>, eps: seq<Endpoint>, ch: Changes,
    ep: Endpoint)
    requires SyncBatch(cfg, env, s, eps, ch) && ep in Adjust(cfg, eps)
    ensures Settles(cfg, After(cfg, env, s, pending, ch).store, ep)
  {
    if HasKey(ch.create, Key(ep)) {
      CreateSettles(cfg, env, s, pending, eps, ch, ep);
    } else if HasKey(ch.update, Key(ep)) {
      UpdateSettles(cfg, env, s, pending, eps, ch, ep);
    } else {
      RestSettles(cfg, env, s, pending, eps, ch, ep);
    }
  }

  /** An undesired host ends without a route this instance reports. */
  lemma UndesiredSettles(cfg: Config, env: Env, s: Store, pending: map<string, Reason>, eps: seq<Endpoint>, ch: Changes,
    h: string)
    requires SyncBatch(cfg, env, s, eps, ch) && !HasKey(Adjust(cfg, eps), h)
    ensures h !in Reported(cfg, After(cfg, env, s, pending, ch).store)
  {
    var q := After(cfg, env, s, pending, ch);
    ReportedByShape(cfg, q.store, h);
    if HasKey(ch.delete, h) {
      var i :| 0 <= i < |ch.delete| && Key(ch.delete[i]) == h;
      DeletedHost(cfg, env, s, pending, ch, i);
    } else {
      UnmentionedHost(cfg, env, s, pending, ch, h);
    }
  }

  lemma CreatesFor(cfg: Config, existing: Index, skipped: map<string, Why>, eps: seq<Endpoint>, h: string)
    requires !HasKey(eps, h)
    ensures forall d :: d in DecideCreates(cfg, existing, skipped, eps) ==> !ForHost(d, h)
  {
    var ds := DecideCreates(cfg, existing, skipped, eps);
    forall d | d in ds
      ensures !ForHost(d, h)
    {
      var i :| 0 <= i < |ds| && ds[i] == d;
      assert Key(eps[i]) != h;
    }
  }

  lemma OthersNeverCreate(cfg: Config, index: Index, ch: Changes)
    ensures forall d :: d in DecideDeletes(cfg, index, ch.delete) + DecideUpdates(cfg, index, ch.update) ==>
      d.Go? ==> !d.call.Create?
  {
  }

  /** Nothing that is not planned as a create is ever posted. */
  lemma NoCreateFor(cfg: Config, s: Store, ch: Changes, h: string)
    requires !HasKey(ch.create, h)
    ensures forall d :: d in DecisionsFor(cfg, s, ch) && ForHost(d, h) ==> !d.call.Create?
  {
    OthersNeverCreate(cfg, IndexFor(cfg, s, ch), ch);
    CreatesFor(cfg, ExistingFor(cfg, s, ch), SkippedFor(cfg, ch), ch.create, h);
  }

  lemma {:induction false} NeverPending(cfg: Config, env: Env, p: Progress, ds: seq<Decision>, h: string)
    requires h !in p.pending
    requires forall d :: d in ds && ForHost(d, h) ==> !d.call.Create?
    ensures h !in RunAll(cfg, env, p, ds).pending
    decreases |ds|
  {
    if ds != [] {
      NeverPending(cfg, env, Step(cfg, env, p, ds[0]), ds[1..], h);
    }
  }

  /** Hosts that waited and are created wait no longer; nothing starts to wait. */
  lemma PendingSettles(cfg: Config, env: Env, s: Store, pending: map<string, Reason>, eps: seq<Endpoint>, ch: Changes,
    h: string)
    requires SyncBatch(cfg, env, s, eps, ch)
    requires h in pending ==> HasKey(Adjust(cfg, eps), h) && h !in Reported(cfg, s)
    ensures h !in After(cfg, env, s, pending, ch).pending
  {
    if HasKey(ch.create, h) {
      var i :| 0 <= i < |ch.create| && Key(ch.create[i]) == h;
      AdjustElements(cfg, eps);
      UnheldCreate(cfg, env, s, eps, ch, i);
      CreatedHost(cfg, env, s, pending, ch, i);
    } else {
      NoCreateFor(cfg, s, ch, h);
      NeverPending(cfg, env, Begun(cfg, s, pending, ch), DecisionsFor(cfg, s, ch), h);
    }
  }

  lemma UnheldCreate(cfg: Config, env: Env, s: Store, eps: seq<Endpoint>, ch: Changes, i: nat)
    requires SyncBatch(cfg, env, s, eps, ch) && i < |ch.create|
    ensures Key(ch.create[i]) !in s.live
    ensures cfg.matches(ch.create[i].dns) && Resolve(cfg.resolver, ch.create[i].dns).Some?
  {
    var desired, ep := Adjust(cfg, eps), ch.create[i];
    AdjustElements(cfg, eps);
    KeysAre(desired);
    assert ep in desired && HasKey(ch.create, Key(ep));
    assert cfg.matches(Lower(ep.dns)) == cfg.matches(ep.dns);
  }

  lemma DeleteUntroubled(cfg: Config, env: Env, s: Store, eps: seq<Endpoint>, ch: Changes, i: nat)
    requires SyncBatch(cfg, env, s, eps, ch) && i < |ch.delete|
    ensures !Troubled(env, s, DecideDelete(cfg, IndexFor(cfg, s, ch), ch.delete[i]))
  {
  }

  lemma UpdateUntroubled(cfg: Config, env: Env, s: Store, eps: seq<Endpoint>, ch: Changes, i: nat)
    requires SyncBatch(cfg, env, s, eps, ch) && i < |ch.update|
    ensures !Troubled(env, s, DecideUpdate(cfg, IndexFor(cfg, s, ch), ch.update[i]))
  {
    UpdateResolves(cfg, s, eps, ch, i);
  }

  /** What is planned as an update is desired, so it resolves. */
  lemma UpdateResolves(cfg: Config, s: Store, eps: seq<Endpoint>, ch: Changes, i: nat)
    requires IsPlan(cfg, s, Adjust(cfg, eps), ch) && i < |ch.update|
    ensures Resolve(cfg.resolver, ch.update[i].dns).Some?
  {
    var ep, desired := ch.update[i], Adjust(cfg, eps);
    AdjustElements(cfg, eps);
    assert HasKey(ch.update, Key(ep));
    var j :| 0 <= j < |desired| && Key(desired[j]) == Key(ep);
    assert desired[j] in desired;
    ResolveIgnoresCase(cfg.resolver, ep.dns);
    ResolveIgnoresCase(cfg.resolver, desired[j].dns);
  }

  lemma CreateUntroubled(cfg: Config, env: Env, s: Store, eps: seq<Endpoint>, ch: Changes, i: nat)
    requires SyncBatch(cfg, env, s, eps, ch) && i < |ch.create|
    ensures !Troubled(env, s, DecideCreate(cfg, ExistingFor(cfg, s, ch), SkippedFor(cfg, ch), ch.create[i]))
  {
    UnheldCreate(cfg, env, s, eps, ch, i);
  }

  /** No decision of a synchronising batch goes wrong when every call works. */
  lemma NoneTroubled(cfg: Config, env: Env, s: Store, eps: seq<Endpoint>, ch: Changes, k: nat)
    requires SyncBatch(cfg, env, s, eps, ch) && k < |DecisionsFor(cfg, s, ch)|
    ensures !Troubled(env, s, DecisionsFor(cfg, s, ch)[k])
  {
    DecisionAt(cfg, s, ch, k);
    var d, u := |ch.delete|, |ch.update|;
    if k < d {
      DeleteUntroubled(cfg, env, s, eps, ch, k);
    } else if k < d + u {
      UpdateUntroubled(cfg, env, s, eps, ch, k - d);
    } else {
      CreateUntroubled(cfg, env, s, eps, ch, k - d - u);
    }
  }

  /** When everything works, a batch is its fragment edit and its decisions. */
  lemma ApplyIsAfter(cfg: Config, env: Env, s: Store, m: Rewrites, pending: map<string, Reason>, ch: Changes)
    requires IsBatch(cfg, env, s, ch)
    ensures var b := Apply(cfg, env, s, m, pending, ch);
      && b.progress == After(cfg, env, s, pending, ch)
      && b.rewrites == Edited(m, Adds(cfg, ch.create), Removes(cfg, ch.delete))
      && (b.wrote ==> b.rewrites != m)
  {
    assert SkippedProblems(map[]) == [];
    assert Edited(m, map[], []) == m;
    LegWorks(cfg, env, Applying, m, ch);
  }

  lemma BatchErrors(cfg: Config, env: Env, s: Store, pending: map<string, Reason>, eps: seq<Endpoint>, ch: Changes)
    requires SyncBatch(cfg, env, s, eps, ch)
    ensures After(cfg, env, s, pending, ch).errs == []
  {
    BatchPinned(cfg, s, ch);
    DecisionHosts(cfg, IndexFor(cfg, s, ch), ExistingFor(cfg, s, ch), SkippedFor(cfg, ch), ch);
    forall k | 0 <= k < |DecisionsFor(cfg, s, ch)|
      ensures !Troubled(env, s, DecisionsFor(cfg, s, ch)[k])
    {
      NoneTroubled(cfg, env, s, eps, ch, k);
    }
    assert SkippedProblems(map[]) == [];
    RunAllSilent(cfg, env, Begun(cfg, s, pending, ch), DecisionsFor(cfg, s, ch));
  }

  lemma PlanRemoves(cfg: Config, s: Store, desired: seq<Endpoint>, ch: Changes)
    requires ValidConfig(cfg) && IsPlan(cfg, s, desired, ch)
    ensures forall h :: h in Removes(cfg, ch.delete) <==> HasKey(ch.delete, h)
  {
    forall i | 0 <= i < |ch.delete|
      ensures cfg.matches(ch.delete[i].dns)
    {
      assert HasKey(ch.delete, Key(ch.delete[i]));
      assert cfg.matches(Lower(ch.delete[i].dns)) == cfg.matches(ch.delete[i].dns);
    }
    forall h {
      RemovesAt(cfg, ch.delete, h);
    }
  }

  lemma AddsExactly(cfg: Config, eps: seq<Endpoint>)
    requires DistinctKeys(eps) && forall ep :: ep in eps ==> cfg.matches(ep.dns) && Answer(cfg, ep).Success?
    ensures Skips(cfg, eps) == map[]
    ensures forall h :: h in Adds(cfg, eps) ==> HasKey(eps, h)
    ensures forall ep :: ep in eps ==> Key(ep) in Adds(cfg, eps) && Adds(cfg, eps)[Key(ep)] == Answer(cfg, ep).value
  {
    assert forall i :: 0 <= i < |eps| ==> eps[i] in eps;
    NoSkips(cfg, eps);
    forall h | h in Adds(cfg, eps)
      ensures HasKey(eps, h)
    {
      AddsAt(cfg, eps, h);
    }
    forall ep | ep in eps
      ensures Key(ep) in Adds(cfg, eps) && Adds(cfg, eps)[Key(ep)] == Answer(cfg, ep).value
    {
      var i :| 0 <= i < |eps| && eps[i] == ep;
      AddsOf(cfg, eps, i);
    }
  }

  lemma PlanAdds(cfg: Config, s: Store, eps: seq<Endpoint>, ch: Changes)
    requires GoodDesire(cfg, Adjust(cfg, eps)) && IsPlan(cfg, s, Adjust(cfg, eps), ch)
    ensures SkippedFor(cfg, ch) == map[]
    ensures forall h :: h in Adds(cfg, ch.create) ==> HasKey(ch.create, h)
    ensures forall ep :: ep in ch.create ==>
      Key(ep) in Adds(cfg, ch.create) && Adds(cfg, ch.create)[Key(ep)] == Answer(cfg, ep).value
  {
    AdjustElements(cfg, eps);
    CreatesDistinct(ch);
    AddsExactly(cfg, ch.create);
  }

  lemma PlanEdits(cfg: Config, env: Env, s: Store, eps: seq<Endpoint>, ch: Changes)
    requires RealRun(cfg, env) && ValidStore(s)
    requires GoodDesire(cfg, Adjust(cfg, eps)) && IsPlan(cfg, s, Adjust(cfg, eps), ch)
    ensures SkippedFor(cfg, ch) == map[]
    ensures forall h :: h in Removes(cfg, ch.delete) <==> HasKey(ch.delete, h)
    ensures forall h :: h in Adds(cfg, ch.create) ==> HasKey(ch.create, h)
    ensures forall ep :: ep in ch.create ==>
      Key(ep) in Adds(cfg, ch.create) && Adds(cfg, ch.create)[Key(ep)] == Answer(cfg, ep).value
  {
    PlanRemoves(cfg, s, Adjust(cfg, eps), ch);
    PlanAdds(cfg, s, eps, ch);
  }

  lemma CreatesDistinct(ch: Changes)
    requires OneChangeEach(ch)
    ensures DistinctKeys(ch.create)
  {
    var all, n := ch.delete + ch.update + ch.create, |ch.delete| + |ch.update|;
    forall i, j | 0 <= i < j < |ch.create|
      ensures Key(ch.create[i]) != Key(ch.create[j])
    {
      assert all[n + i] == ch.create[i] && all[n + j] == ch.create[j];
    }
  }

  /** A fragment AdjustEndpoints has repaired and pruned. */
  ghost predicate Repaired(cfg: Config, s: Store, m: Rewrites, desired: seq<Endpoint>) {
    && (forall ep :: ep in desired && Key(ep) in Reported(cfg, s) ==>
          Key(ep) in m && Success(m[Key(ep)]) == Answer(cfg, ep))
    && (forall h :: h in m && !HasKey(desired, h) && cfg.matches(h) && Resolve(cfg.resolver, h).Some? ==>
          h in OwnedIndex(cfg, s))
  }

  lemma AnswersDesired(cfg: Config, env: Env, s: Store, m: Rewrites, eps: seq<Endpoint>, ch: Changes, ep: Endpoint)
    requires RealRun(cfg, env) && ValidStore(s) && GoodDesire(cfg, Adjust(cfg, eps))
    requires IsPlan(cfg, s, Adjust(cfg, eps), ch) && Repaired(cfg, s, m, Adjust(cfg, eps)) && ep in Adjust(cfg, eps)
    ensures var after := Edited(m, Adds(cfg, ch.create), Removes(cfg, ch.delete));
      Key(ep) in after && after[Key(ep)] == Answer(cfg, ep).value
  {
    PlanEdits(cfg, env, s, eps, ch);
    KeysAre(Adjust(cfg, eps));
    if Key(ep) in Reported(cfg, s) {
      assert !HasKey(ch.create, Key(ep)) && !HasKey(ch.delete, Key(ep));
    } else {
      var i :| 0 <= i < |ch.create| && Key(ch.create[i]) == Key(ep);
      assert ch.create[i] in ch.create;
      KeyFinds(Adjust(cfg, eps), ep, ch.create[i]);
    }
  }

  lemma AnswersNothingElse(cfg: Config, env: Env, s: Store, m: Rewrites, eps: seq<Endpoint>, ch: Changes, h: string)
    requires RealRun(cfg, env) && ValidStore(s) && GoodDesire(cfg, Adjust(cfg, eps))
    requires IsPlan(cfg, s, Adjust(cfg, eps), ch) && Repaired(cfg, s, m, Adjust(cfg, eps))
    requires cfg.matches(h) && Resolve(cfg.resolver, h).Some? && !HasKey(Adjust(cfg, eps), h)
    ensures h !in Edited(m, Adds(cfg, ch.create), Removes(cfg, ch.delete))
  {
    PlanEdits(cfg, env, s, eps, ch);
    if h in m {
      assert h in Reported(cfg, s);
    }
  }

  /** The fragment after both of its edits in one reconciliation. */
  lemma FragmentSettles(cfg: Config, env: Env, s: Store, m: Rewrites, eps: seq<Endpoint>, ch: Changes)
    requires RealRun(cfg, env) && ValidStore(s) && GoodDesire(cfg, Adjust(cfg, eps))
    requires IsPlan(cfg, s, Adjust(cfg, eps), ch) && Repaired(cfg, s, m, Adjust(cfg, eps))
    ensures AnsweredAsDesired(cfg, Edited(m, Adds(cfg, ch.create), Removes(cfg, ch.delete)), Adjust(cfg, eps))
  {
    var desired := Adjust(cfg, eps);
    forall ep | ep in desired
      ensures Key(ep) in Edited(m, Adds(cfg, ch.create), Removes(cfg, ch.delete))
      ensures Edited(m, Adds(cfg, ch.create), Removes(cfg, ch.delete))[Key(ep)] == Answer(cfg, ep).value
    {
      AnswersDesired(cfg, env, s, m, eps, ch, ep);
    }
    forall h | cfg.matches(h) && Resolve(cfg.resolver, h).Some?
      ensures h in Edited(m, Adds(cfg, ch.create), Removes(cfg, ch.delete)) <==> HasKey(desired, h)
    {
      if HasKey(desired, h) {
        var i :| 0 <= i < |desired| && Key(desired[i]) == h;
        assert desired[i] in desired;
      } else {
        AnswersNothingElse(cfg, env, s, m, eps, ch, h);
      }
    }
  }

  /** Both legs settle on what AdjustEndpoints answered. */
  lemma LegsSettle(cfg: Config, env: Env, s: Store, m: Rewrites, pending: map<string, Reason>, eps: seq<Endpoint>,
    ch: Changes)
    requires RealRun(cfg, env) && cfg.prune && ValidStore(s)
    requires GoodDesire(cfg, Adjust(cfg, eps)) && NoForeignHolder(cfg, s, Adjust(cfg, eps))
    requires IsPlan(cfg, s, Adjust(cfg, eps), ch)
    ensures var recorded := Retain(pending, pending.Keys - Reported(cfg, s));
      var a := AdjustLeg(cfg, env, m, recorded, Reported(cfg, s), true, OwnedIndex(cfg, s).Keys, eps);
      var b := Apply(cfg, env, s, a.rewrites, a.pending, ch);
      && a.ok && b.progress.errs == [] && b.progress.pending == map[]
      && RoutedAsDesired(cfg, b.progress.store, Adjust(cfg, eps))
      && AnsweredAsDesired(cfg, b.rewrites, Adjust(cfg, eps))
  {
    var desired := Adjust(cfg, eps);
    var recorded := Retain(pending, pending.Keys - Reported(cfg, s));
    AdjustRepairs(cfg, env, s, m, recorded, eps);
    var a := AdjustLeg(cfg, env, m, recorded, Reported(cfg, s), true, OwnedIndex(cfg, s).Keys, eps);
    PlanEdits(cfg, env, s, eps, ch);
    ApplyIsAfter(cfg, env, s, a.rewrites, a.pending, ch);
    BatchErrors(cfg, env, s, a.pending, eps, ch);
    FragmentSettles(cfg, env, s, a.rewrites, eps, ch);
    KeysAre(desired);
    var q := After(cfg, env, s, a.pending, ch);
    forall h
      ensures h !in q.pending
    {
      PendingSettles(cfg, env, s, a.pending, eps, ch, h);
    }
    assert q.pending == map[];
    RoutesSettle(cfg, env, s, a.pending, eps, ch);
  }

  lemma RoutesSettle(cfg: Config, env: Env, s: Store, pending: map<string, Reason>, eps: seq<Endpoint>, ch: Changes)
    requires SyncBatch(cfg, env, s, eps, ch)
    ensures RoutedAsDesired(cfg, After(cfg, env, s, pending, ch).store, Adjust(cfg, eps))
  {
    var desired, q := Adjust(cfg, eps), After(cfg, env, s, pending, ch);
    forall ep | ep in desired
      ensures Settles(cfg, q.store, ep)
    {
      DesiredSettles(cfg, env, s, pending, eps, ch, ep);
    }
    forall h
      ensures h in Reported(cfg, q.store) <==> HasKey(desired, h)
    {
      if HasKey(desired, h) {
        var i :| 0 <= i < |desired| && Key(desired[i]) == h;
        assert desired[i] in desired;
      } else {
        UndesiredSettles(cfg, env, s, pending, eps, ch, h);
      }
    }
  }

  lemma SettledUpdate(cfg: Config, s: Store, eps: seq<Endpoint>, ch: Changes, i: nat)
    requires RoutedAsDesired(cfg, s, Adjust(cfg, eps)) && IsPlan(cfg, s, Adjust(cfg, eps), ch) && i < |ch.update|
    ensures DecideUpdate(cfg, IndexFor(cfg, s, ch), ch.update[i]).Skip?
  {
    var desired, h := Adjust(cfg, eps), Key(ch.update[i]);
    assert HasKey(ch.update, h);
    var j :| 0 <= j < |desired| && Key(desired[j]) == h;
    assert desired[j] in desired;
    UpdateResolves(cfg, s, eps, ch, i);
    ResolveIgnoresCase(cfg.resolver, ch.update[i].dns);
    ResolveIgnoresCase(cfg.resolver, desired[j].dns);
  }

  /** In the settled state no call is decided on. */
  lemma SettledDecisions(cfg: Config, env: Env, s: Store, eps: seq<Endpoint>, ch: Changes)
    requires RealRun(cfg, env) && ValidStore(s)
    requires RoutedAsDesired(cfg, s, Adjust(cfg, eps)) && IsPlan(cfg, s, Adjust(cfg, eps), ch)
    ensures ch.create == [] && ch.delete == []
    ensures forall d :: d in DecisionsFor(cfg, s, ch) ==> d.Skip?
  {
    assert ch.create != [] ==> HasKey(ch.create, Key(ch.create[0]));
    assert ch.delete != [] ==> HasKey(ch.delete, Key(ch.delete[0]));
    forall i | 0 <= i < |ch.update|
      ensures DecideUpdate(cfg, IndexFor(cfg, s, ch), ch.update[i]).Skip?
    {
      SettledUpdate(cfg, s, eps, ch, i);
    }
    assert DecisionsFor(cfg, s, ch) == DecideUpdates(cfg, IndexFor(cfg, s, ch), ch.update);
  }

  lemma {:induction false} SkipsDoNothing(cfg: Config, env: Env, p: Progress, ds: seq<Decision>)
    requires forall d :: d in ds ==> d.Skip?
    ensures RunAll(cfg, env, p, ds) == p
    decreases |ds|
  {
    if ds != [] {
      SkipsDoNothing(cfg, env, p, ds[1..]);
    }
  }

  lemma SettledRepair(cfg: Config, m: Rewrites, desired: seq<Endpoint>, hosts: set<string>)
    requires ValidConfig(cfg) && GoodDesire(cfg, desired) && AnsweredAsDesired(cfg, m, desired)
    requires forall ep :: ep in desired ==> cfg.matches(ep.dns) && Resolve(cfg.resolver, ep.dns).Some?
    ensures Edited(m, Adds(cfg, Existing(desired, hosts)), []) == m
  {
    var add := Adds(cfg, Existing(desired, hosts));
    forall h | h in add
      ensures h in m && m[h] == add[h]
    {
      AddsAt(cfg, Existing(desired, hosts), h);
      ExistingAt(desired, hosts);
      var i :| 0 <= i < |Existing(desired, hosts)| && Key(Existing(desired, hosts)[i]) == h &&
        Answer(cfg, Existing(desired, hosts)[i]) == Success(add[h]);
      var ep := Existing(desired, hosts)[i];
      assert ep in Existing(desired, hosts);
      KeysAre(desired);
      ResolveIgnoresCase(cfg.resolver, ep.dns);
      assert cfg.matches(Lower(ep.dns)) == cfg.matches(ep.dns);
    }
  }

  ghost predicate Settled(cfg: Config, env: Env, s: Store, m: Rewrites, eps: seq<Endpoint>) {
    && RealRun(cfg, env) && cfg.prune && ValidStore(s) && GoodDesire(cfg, Adjust(cfg, eps))
    && RoutedAsDesired(cfg, s, Adjust(cfg, eps)) && AnsweredAsDesired(cfg, m, Adjust(cfg, eps))
  }

  lemma SettledAdjust(cfg: Config, env: Env, s: Store, m: Rewrites, eps: seq<Endpoint>)
    requires Settled(cfg, env, s, m, eps)
    ensures var a := AdjustLeg(cfg, env, m, map[], Reported(cfg, s), true, OwnedIndex(cfg, s).Keys, eps);
      a.ok && a.writes == 0 && a.rewrites == m && a.pending == map[]
  {
    var desired := Adjust(cfg, eps);
    AdjustElements(cfg, eps);
    KeysAre(desired);
    AdjustRepairs(cfg, env, s, m, map[], eps);
    SettledRepair(cfg, m, desired, Reported(cfg, s));
    assert Stale(cfg, m, OwnedIndex(cfg, s).Keys, Keys(desired)) == {};
  }

  lemma SettledApply(cfg: Config, env: Env, s: Store, m: Rewrites, eps: seq<Endpoint>, ch: Changes)
    requires Settled(cfg, env, s, m, eps) && IsPlan(cfg, s, Adjust(cfg, eps), ch)
    ensures Apply(cfg, env, s, m, map[], ch) == Applied(Progress(s, [], map[], [], None), m, false)
  {
    SettledDecisions(cfg, env, s, eps, ch);
    SkipsDoNothing(cfg, env, Begun(cfg, s, map[], ch), DecisionsFor(cfg, s, ch));
    ApplyIsAfter(cfg, env, s, m, map[], ch);
    assert Edited(m, map[], []) == m;
    assert SkippedProblems(map[]) == [];
  }

  /**
   Quiescence: once both legs are as desired, a reconciliation makes no Cloudflare call, writes no
   ConfigMap, and leaves both legs as they are.
   */
  lemma SettledIsQuiet(cfg: Config, env: Env, s: Store, m: Rewrites, eps: seq<Endpoint>, ch: Changes)
    requires Settled(cfg, env, s, m, eps) && IsPlan(cfg, s, Adjust(cfg, eps), ch)
    ensures var a := AdjustLeg(cfg, env, m, map[], Reported(cfg, s), true, OwnedIndex(cfg, s).Keys, eps);
      var b := Apply(cfg, env, s, a.rewrites, a.pending, ch);
      && a.ok && a.writes == 0 && a.rewrites == m
      && !b.wrote && b.rewrites == m && b.progress == Progress(s, [], map[], [], None)
  {
    SettledAdjust(cfg, env, s, m, eps);
    SettledApply(cfg, env, s, m, eps, ch);
  }

  // The same, told by the endpoints given.

  /**
   Each name that is served is asked for once, is no wildcard, and points to a Service; names and Services fit
   the fragment's text.
   */
  ghost predicate GoodDemand(cfg: Config, eps: seq<Endpoint>) {
    && AskedOnce(cfg, eps)
    && forall i :: 0 <= i < |eps| && Served(cfg, eps[i]) ==> GoodService(cfg, eps[i])
  }

  ghost predicate GoodService(cfg: Config, ep: Endpoint) {
    IsToken(Lower(ep.dns)) && '*' !in ep.dns && exists target :: PointsTo(cfg, ep, target) && IsToken(target)
  }

  /** Whatever holds a name that is served is on a listed tunnel, and this instance's to manage. */
  ghost predicate FreeForUs(cfg: Config, s: Store, eps: seq<Endpoint>) {
    forall i :: 0 <= i < |eps| && Served(cfg, eps[i]) && Lower(eps[i].dns) in s.live ==>
      InOwnHands(cfg, s, Lower(eps[i].dns))
  }

  predicate InOwnHands(cfg: Config, s: Store, h: string) {
    h in s.live && s.live[h].tunnel in Tunnels(cfg.resolver) && Manageable(cfg, s.live[h].comment)
  }

  /**
   Every name that is served is routed on the tunnel it resolves to, by a route this instance manages; and
   inside the filter it manages no other route.
   */
  ghost predicate RoutedAsAsked(cfg: Config, s: Store, eps: seq<Endpoint>) {
    && (forall i :: 0 <= i < |eps| && Served(cfg, eps[i]) ==> RoutedFor(cfg, s, eps[i]))
    && (forall h :: InOwnHands(cfg, s, h) && cfg.matches(h) ==> IsAsked(cfg, eps, h))
  }

  predicate RoutedFor(cfg: Config, s: Store, ep: Endpoint) {
    InOwnHands(cfg, s, Lower(ep.dns)) && Some(s.live[Lower(ep.dns)].tunnel) == Resolve(cfg.resolver, ep.dns)
  }

  /** Every name that is served points to its own Service; and of the names configured here, no other is answered. */
  ghost predicate AnsweredAsAsked(cfg: Config, m: Rewrites, eps: seq<Endpoint>) {
    && (forall i, target :: 0 <= i < |eps| && Served(cfg, eps[i]) && PointsTo(cfg, eps[i], target) ==>
          Lower(eps[i].dns) in m && m[Lower(eps[i].dns)] == target)
    && (forall h :: h in m && cfg.matches(h) && Resolve(cfg.resolver, h).Some? ==> IsAsked(cfg, eps, h))
  }

  lemma ServiceAnswers(cfg: Config, ep: Endpoint, target: string)
    requires '*' !in ep.dns && PointsTo(cfg, ep, target)
    ensures Answer(cfg, ep) == Success(target)
  {
    AnswerExact(cfg, ep, target, Wildcard);
  }

  lemma GoodServiceAnswers(cfg: Config, ep: Endpoint, out: Endpoint)
    requires GoodService(cfg, ep) && out.dns == ep.dns && out.labels == ep.labels
    ensures Answer(cfg, out).Success? && IsToken(Key(out)) && IsToken(Answer(cfg, out).value)
  {
    var target :| PointsTo(cfg, ep, target) && IsToken(target);
    SamePoints(cfg, ep, out, target);
    ServiceAnswers(cfg, out, target);
  }

  lemma DemandIsGood(cfg: Config, eps: seq<Endpoint>)
    requires GoodDemand(cfg, eps)
    ensures GoodDesire(cfg, Adjust(cfg, eps))
  {
    var out := Adjust(cfg, eps);
    AskedOnceDistinct(cfg, eps);
    forall j: nat | j < |out|
      ensures Answer(cfg, out[j]).Success? && IsToken(Key(out[j])) && IsToken(Answer(cfg, out[j]).value)
    {
      var i := KeptIsGiven(cfg, eps, j);
      GoodServiceAnswers(cfg, eps[i], out[j]);
    }
  }

  lemma KeyedIsAsked(cfg: Config, eps: seq<Endpoint>, h: string)
    ensures HasKey(Adjust(cfg, eps), h) <==> IsAsked(cfg, eps, h)
  {
    KeysAre(Adjust(cfg, eps));
    KeyIsAsked(cfg, eps, h);
  }

  lemma FreeIsUnheld(cfg: Config, s: Store, eps: seq<Endpoint>)
    requires FreeForUs(cfg, s, eps)
    ensures NoForeignHolder(cfg, s, Adjust(cfg, eps))
  {
    forall h | HasKey(Adjust(cfg, eps), h) && h in s.live
      ensures h in OwnedIndex(cfg, s)
    {
      KeyedIsAsked(cfg, eps, h);
      var i :| 0 <= i < |eps| && Served(cfg, eps[i]) && Lower(eps[i].dns) == h;
      assert InOwnHands(cfg, s, h);
    }
  }

  lemma RoutedByGiven(cfg: Config, s: Store, eps: seq<Endpoint>)
    requires RoutedAsDesired(cfg, s, Adjust(cfg, eps))
    ensures RoutedAsAsked(cfg, s, eps)
  {
    var out := Adjust(cfg, eps);
    forall i: nat | i < |eps| && Served(cfg, eps[i])
      ensures RoutedFor(cfg, s, eps[i])
    {
      var j := ServedIsKept(cfg, eps, i);
      assert out[j] in out && HasKey(out, Key(out[j]));
      assert Key(out[j]) in Reported(cfg, s);
    }
    forall h | InOwnHands(cfg, s, h) && cfg.matches(h)
      ensures IsAsked(cfg, eps, h)
    {
      assert h in Reported(cfg, s);
      KeyedIsAsked(cfg, eps, h);
    }
  }

  lemma ServedMatches(cfg: Config, ep: Endpoint)
    requires ValidConfig(cfg) && Served(cfg, ep)
    ensures cfg.matches(Lower(ep.dns)) && Resolve(cfg.resolver, Lower(ep.dns)).Some?
  {
    ResolveIgnoresCase(cfg.resolver, ep.dns);
    assert cfg.matches(Lower(ep.dns)) == cfg.matches(ep.dns);
  }

  lemma AnsweredByGiven(cfg: Config, m: Rewrites, eps: seq<Endpoint>)
    requires ValidConfig(cfg) && GoodDemand(cfg, eps) && AnsweredAsDesired(cfg, m, Adjust(cfg, eps))
    ensures AnsweredAsAsked(cfg, m, eps)
  {
    var out := Adjust(cfg, eps);
    forall i: nat, target | i < |eps| && Served(cfg, eps[i]) && PointsTo(cfg, eps[i], target)
      ensures Lower(eps[i].dns) in m && m[Lower(eps[i].dns)] == target
    {
      var j := ServedIsKept(cfg, eps, i);
      assert out[j] in out && HasKey(out, Key(out[j]));
      ServedMatches(cfg, eps[i]);
      SamePoints(cfg, eps[i], out[j], target);
      ServiceAnswers(cfg, out[j], target);
    }
    forall h | h in m && cfg.matches(h) && Resolve(cfg.resolver, h).Some?
      ensures IsAsked(cfg, eps, h)
    {
      KeyedIsAsked(cfg, eps, h);
    }
  }

  /**
   Self-stabilisation: from any account, fragment and pending set, one reconciliation in which every call works
   routes every name that is served on its tunnel, answers it with its own Service, leaves nothing else of this
   instance's inside the filter, and leaves nothing pending. The planner is given what AdjustEndpoints answered.
   */
  lemma SelfStabilises(cfg: Config, env: Env, s: Store, m: Rewrites, pending: map<string, Reason>, eps: seq<Endpoint>,
    desired: seq<Endpoint>, ch: Changes)
    requires RealRun(cfg, env) && cfg.prune && ValidStore(s)
    requires GoodDemand(cfg, eps) && FreeForUs(cfg, s, eps)
    requires IsCanonical(cfg, eps, desired) && IsPlan(cfg, s, desired, ch)
    ensures var recorded := Retain(pending, pending.Keys - Reported(cfg, s));
      var a := AdjustLeg(cfg, env, m, recorded, Reported(cfg, s), true, OwnedIndex(cfg, s).Keys, eps);
      var b := Apply(cfg, env, s, a.rewrites, a.pending, ch);
      && a.ok && b.progress.errs == [] && b.progress.pending == map[]
      && RoutedAsAsked(cfg, b.progress.store, eps) && AnsweredAsAsked(cfg, b.rewrites, eps)
      && Settled(cfg, env, b.progress.store, b.rewrites, eps)
  {
    CanonicalIsAdjust(cfg, eps, desired);
    DemandIsGood(cfg, eps);
    FreeIsUnheld(cfg, s, eps);
    LegsSettle(cfg, env, s, m, pending, eps, ch);
    var recorded := Retain(pending, pending.Keys - Reported(cfg, s));
    var a := AdjustLeg(cfg, env, m, recorded, Reported(cfg, s), true, OwnedIndex(cfg, s).Keys, eps);
    var b := Apply(cfg, env, s, a.rewrites, a.pending, ch);
    BatchKeeps(cfg, env, s, a.pending, ch);
    PlanEdits(cfg, env, s, eps, ch);
    ApplyIsAfter(cfg, env, s, a.rewrites, a.pending, ch);
    RoutedByGiven(cfg, b.progress.store, eps);
    AnsweredByGiven(cfg, b.rewrites, eps);
  }
}
