/**
 Moving routes off a tunnel: nothing an instance does brings a route of its own onto a draining
 tunnel, and moving routes never leaves a name unrouted.
 */
module Drain {
  import opened Wrappers
  import opened Text
  import opened FragmentCodec
  import opened Resolver
  import opened Routes
  import opened Reconcile
  import opened PerHost
  import opened Protocol
  import opened Safety
  import opened Stabilise

  /** The owner's routes on one tunnel, by id. */
  function OwnOn(cfg: Config, s: Store, tunnel: string): set<nat> {
    set h | h in s.live && Owns(cfg, s.live[h].comment) && s.live[h].tunnel == tunnel :: s.live[h].id
  }

  /** No step of any instance, and no crash, brings a route of this owner onto a tunnel it drains. */
  lemma DrainStep(cfgs: seq<Config>, w: World, l: Label, k: nat, tunnel: string)
    requires Fleet(cfgs) && NoClash(cfgs) && AllSteady(cfgs, w) && k < |cfgs| && tunnel in cfgs[k].resolver.drain
    ensures OwnOn(cfgs[k], Next(cfgs, w, l).store, tunnel) <= OwnOn(cfgs[k], w.store, tunnel)
  {
    var s, s' := w.store, Next(cfgs, w, l).store;
    forall h | OwnedAt(cfgs[k], s', h) && s'.live[h].tunnel == tunnel
      ensures OwnedAt(cfgs[k], s, h) && s.live[h].tunnel == tunnel && s.live[h].id == s'.live[h].id
    {
      if k != l.i {
        OthersLeaveOwned(cfgs, w, l, k, h);
      } else {
        OwnCallDrains(cfgs, w, l, h, tunnel);
      }
    }
  }

  /** A rightful call brings no route of its owner onto a draining tunnel. */
  lemma RightfulDrains(cfgs: seq<Config>, p: nat, s: Store, index: Index, existing: Index, c: Call, reply: Reply,
    h: string, tunnel: string)
    requires Fleet(cfgs) && p < |cfgs| && ValidStore(s) && Rightful(cfgs, p, s, index, existing, c)
    requires tunnel in cfgs[p].resolver.drain
    requires OwnedAt(cfgs[p], Perform(s, c, reply).0, h) && Perform(s, c, reply).0.live[h].tunnel == tunnel
    ensures OwnedAt(cfgs[p], s, h) && s.live[h].tunnel == tunnel && s.live[h].id == Perform(s, c, reply).0.live[h].id
  {
    PerformLocal(s, c, reply);
    if h == c.host {
      PerformAtHost(s, c, reply);
      if Hits(s, c) {
        RightfulFinds(cfgs, p, s, index, existing, c);
      }
      if Resolve(cfgs[p].resolver, h).Some? {
        ResolvesToConfigured(cfgs[p].resolver, h);
      }
    }
  }

  lemma OwnCallDrains(cfgs: seq<Config>, w: World, l: Label, h: string, tunnel: string)
    requires Fleet(cfgs) && NoClash(cfgs) && AllSteady(cfgs, w) && l.i < |cfgs| && tunnel in cfgs[l.i].resolver.drain
    requires OwnedAt(cfgs[l.i], Next(cfgs, w, l).store, h) && Next(cfgs, w, l).store.live[h].tunnel == tunnel
    ensures OwnedAt(cfgs[l.i], w.store, h)
    ensures w.store.live[h].tunnel == tunnel && w.store.live[h].id == Next(cfgs, w, l).store.live[h].id
  {
    NextStore(cfgs, w, l);
    if CallOf(cfgs, w, l).Some? {
      var c, p := CallOf(cfgs, w, l).value, w.insts[l.i].phase;
      SteadyCallRightful(cfgs, l.i, w.store, p);
      RightfulDrains(cfgs, l.i, w.store, p.index, p.existing, c, l.env(CallOp(KindOf(c)), c.host), h, tunnel);
    }
  }

  /** In every run, the owner's routes on a draining tunnel only ever leave it. */
  lemma {:induction false} DrainNeverRises(cfgs: seq<Config>, w: World, ls: seq<Label>, k: nat, tunnel: string)
    requires Fleet(cfgs) && NoClash(cfgs) && AllSteady(cfgs, w) && k < |cfgs| && tunnel in cfgs[k].resolver.drain
    ensures OwnOn(cfgs[k], Run(cfgs, w, ls).store, tunnel) <= OwnOn(cfgs[k], w.store, tunnel)
    decreases |ls|
  {
    if ls != [] {
      DrainStep(cfgs, w, ls[0], k, tunnel);
      SteadyStep(cfgs, w, ls[0]);
      DrainNeverRises(cfgs, Next(cfgs, w, ls[0]), ls[1..], k, tunnel);
    }
  }

  /** One reconciliation without failures leaves on a draining tunnel only what is outside the filter. */
  lemma CycleDrains(cfg: Config, env: Env, s: Store, m: Rewrites, pending: map<string, Reason>, eps: seq<Endpoint>,
    ch: Changes)
    requires RealRun(cfg, env) && cfg.prune && ValidStore(s)
    requires GoodDesire(cfg, Adjust(cfg, eps)) && NoForeignHolder(cfg, s, Adjust(cfg, eps))
    requires IsPlan(cfg, s, Adjust(cfg, eps), ch)
    ensures var recorded := Retain(pending, pending.Keys - Reported(cfg, s));
      var a := AdjustLeg(cfg, env, m, recorded, Reported(cfg, s), true, OwnedIndex(cfg, s).Keys, eps);
      var s' := Apply(cfg, env, s, a.rewrites, a.pending, ch).progress.store;
      forall h :: h in s'.live && Manageable(cfg, s'.live[h].comment) && s'.live[h].tunnel in cfg.resolver.drain ==>
        !cfg.matches(h)
  {
    LegsSettle(cfg, env, s, m, pending, eps, ch);
    var desired := Adjust(cfg, eps);
    var recorded := Retain(pending, pending.Keys - Reported(cfg, s));
    var a := AdjustLeg(cfg, env, m, recorded, Reported(cfg, s), true, OwnedIndex(cfg, s).Keys, eps);
    var s' := Apply(cfg, env, s, a.rewrites, a.pending, ch).progress.store;
    forall h | h in s'.live && Manageable(cfg, s'.live[h].comment) && s'.live[h].tunnel in cfg.resolver.drain
      ensures !cfg.matches(h)
    {
      if cfg.matches(h) {
        assert h in Reported(cfg, s');
        var i :| 0 <= i < |desired| && Key(desired[i]) == h;
        assert desired[i] in desired;
        AdjustElements(cfg, eps);
        ResolvesToConfigured(cfg.resolver, desired[i].dns);
        assert false;
      }
    }
  }

  /** The same names are routed, under the same ids and comments; only tunnels may differ. */
  ghost predicate SameNames(s: Store, s': Store) {
    forall h ::
      && (h in s'.live <==> h in s.live)
      && (h in s.live ==> SameName(s.live[h], s'.live[h]))
  }

  predicate SameName(a: Route, b: Route) {
    a.id == b.id && a.hostname == b.hostname && a.comment == b.comment
  }

  predicate OnlyMoves(ds: seq<Decision>) {
    forall i :: 0 <= i < |ds| && ds[i].Go? ==> ds[i].call.Retarget?
  }

  /** A retarget carries the comment its route was read with. */
  ghost predicate CarriesComment(s: Store, d: Decision) {
    d.Go? && d.call.Retarget? && Hits(s, d.call) ==> d.call.comment == s.live[d.call.host].comment
  }

  lemma MoveKeepsName(s: Store, c: Call, reply: Reply, h: string)
    requires ValidStore(s) && PinnedCall(s, c) && c.Retarget? && CarriesComment(s, Go(c))
    ensures var s' := Perform(s, c, reply).0;
      && (h in s'.live <==> h in s.live)
      && (h in s.live ==> SameName(s.live[h], s'.live[h]))
  {
    if h == c.host {
      PerformAtHost(s, c, reply);
    } else {
      PerformLocal(s, c, reply);
    }
  }

  lemma MoveKeepsNames(cfg: Config, env: Env, p: Progress, d: Decision)
    requires ValidStore(p.store) && PinnedDecision(p.store, d) && (d.Go? ==> d.call.Retarget?)
    requires CarriesComment(p.store, d)
    ensures SameNames(p.store, Step(cfg, env, p, d).store)
  {
    if d.Go? && !cfg.dryRun {
      forall h {
        MoveKeepsName(p.store, d.call, env(CallOp(KindOf(d.call)), d.call.host), h);
      }
    }
  }

  /** Every intermediate state of a batch of updates has the same live ids, names and comments. */
  lemma {:induction false} MovesKeepNames(cfg: Config, env: Env, p: Progress, ds: seq<Decision>, n: nat)
    requires ValidStore(p.store) && AllPinned(p.store, ds) && OnlyMoves(ds) && n <= |ds|
    requires forall i :: 0 <= i < |ds| ==> CarriesComment(p.store, ds[i])
    ensures SameNames(p.store, RunAll(cfg, env, p, ds[..n]).store)
    decreases n
  {
    if n == 0 {
      assert ds[..0] == [];
    } else {
      var q := RunAll(cfg, env, p, ds[..n - 1]);
      MovesKeepNames(cfg, env, p, ds, n - 1);
      RunAllNext(cfg, env, p, ds, n - 1);
      RunAllKeeps(cfg, env, p, ds[..n - 1], ds);
      assert ds[n - 1] in ds && CarriesComment(p.store, ds[n - 1]);
      MoveKeepsNames(cfg, env, q, ds[n - 1]);
    }
  }

  lemma UpdateCarriesComment(cfg: Config, s: Store, ch: Changes, ep: Endpoint)
    ensures CarriesComment(s, DecideUpdate(cfg, IndexFor(cfg, s, ch), ep))
    ensures DecideUpdate(cfg, IndexFor(cfg, s, ch), ep).Go? ==>
      DecideUpdate(cfg, IndexFor(cfg, s, ch), ep).call.Retarget?
  {
  }

  /**
   While a batch of updates is carried out, whatever fails, no name is ever unrouted: after any number
   of its steps the live ids, hostnames and comments are those it began with.
   */
  lemma UpdatesNeverUnroute(cfg: Config, env: Env, s: Store, pending: map<string, Reason>, ch: Changes, n: nat)
    requires ValidStore(s) && ch.create == [] && ch.delete == [] && n <= |DecisionsFor(cfg, s, ch)|
    ensures SameNames(s, RunAll(cfg, env, Begun(cfg, s, pending, ch), DecisionsFor(cfg, s, ch)[..n]).store)
  {
    BatchPinned(cfg, s, ch);
    var ds := DecisionsFor(cfg, s, ch);
    assert ds == DecideUpdates(cfg, IndexFor(cfg, s, ch), ch.update);
    forall i | 0 <= i < |ds| {
      UpdateCarriesComment(cfg, s, ch, ch.update[i]);
    }
    MovesKeepNames(cfg, env, Begun(cfg, s, pending, ch), ds, n);
  }
}
