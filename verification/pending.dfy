/**
 Names waiting for their holder: a host becomes pending only because its create was refused as already
 routed, and the reason given is what its live holder is.
 */
module Pending {
  import opened Wrappers
  import opened Text
  import opened FragmentCodec
  import opened Resolver
  import opened Routes
  import opened Reconcile
  import opened PerHost

  /** What an operator is told about a refused host: who holds it, as far as the account can be seen. */
  ghost predicate Explains(cfg: Config, env: Env, s: Store, h: string, reason: Reason) {
    if !env(ListAccount, "").Works? then reason == PendingUnknown
    else
      && h in s.live
      && (reason == PendingSelf <==> Owns(cfg, s.live[h].comment))
      && (reason == PendingUntagged <==> !IsTagged(s.live[h].comment))
      && (reason == PendingOther <==> IsTagged(s.live[h].comment) && !Owns(cfg, s.live[h].comment))
      && reason != PendingUnknown
  }

  /** The account-wide listing a batch holds, if any, is still right about every host it may have to explain. */
  ghost predicate ListingFits(env: Env, p: Progress, ds: seq<Decision>) {
    p.seen.Some? ==>
      if env(ListAccount, "").Works? then forall d :: d in ds && d.Go? ==> FitsAt(p, d.call.host)
      else p.seen.value == map[]
  }

  predicate FitsAt(p: Progress, h: string)
    requires p.seen.Some?
  {
    AtHost(p.store, h) == if h in p.seen.value then Some(p.seen.value[h]) else None
  }

  lemma ListingStillFits(cfg: Config, env: Env, p: Progress, ds: seq<Decision>)
    requires !cfg.dryRun && ValidStore(p.store) && AllPinned(p.store, ds) && OneEach(ds) && ds != []
    requires ListingFits(env, p, ds)
    ensures ListingFits(env, Step(cfg, env, p, ds[0]), ds[1..])
  {
    var q := Step(cfg, env, p, ds[0]);
    if q.seen.Some? && env(ListAccount, "").Works? {
      forall d | d in ds[1..] && d.Go?
        ensures FitsAt(q, d.call.host)
      {
        var j :| 0 <= j < |ds| - 1 && ds[1..][j] == d;
        assert ds[j + 1] == d;
        StepElsewhere(cfg, env, p, ds[0], d.call.host);
      }
    }
  }

  /** The one decision that can make a host pending: a create refused because the name is taken. */
  lemma RefusalExplained(cfg: Config, env: Env, p: Progress, d: Decision, h: string)
    requires !cfg.dryRun && ValidStore(p.store) && PinnedDecision(p.store, d) && ListingFits(env, p, [d])
    requires var q := Step(cfg, env, p, d); h in q.pending && !SamePending(q.pending, p.pending, h)
    ensures ForHost(d, h) && d.call.Create? && h in p.store.live
    ensures Explains(cfg, env, p.store, h, Step(cfg, env, p, d).pending[h])
  {
    assert d in [d];
    PerformAtHost(p.store, d.call, env(CallOp(KindOf(d.call)), d.call.host));
  }

  /**
   Over a whole batch, a host that becomes pending, or pending for another reason, was live when the batch
   began, was to be created, and is explained by who held it then.
   */
  lemma {:induction false} PendingExplained(cfg: Config, env: Env, p: Progress, ds: seq<Decision>, h: string)
    requires !cfg.dryRun && ValidStore(p.store) && AllPinned(p.store, ds) && OneEach(ds) && ListingFits(env, p, ds)
    requires var q := RunAll(cfg, env, p, ds); h in q.pending && !SamePending(q.pending, p.pending, h)
    ensures h in p.store.live && exists d :: d in ds && ForHost(d, h) && d.call.Create?
    ensures Explains(cfg, env, p.store, h, RunAll(cfg, env, p, ds).pending[h])
    decreases |ds|
  {
    if ds != [] {
      var d, next := ds[0], Step(cfg, env, p, ds[0]);
      assert ds == [d] + ds[1..];
      StepKeeps(cfg, env, p, d);
      ListingStillFits(cfg, env, p, ds);
      if SamePending(RunAll(cfg, env, next, ds[1..]).pending, next.pending, h) {
        assert ListingFits(env, p, [d]);
        RefusalExplained(cfg, env, p, d, h);
      } else {
        PendingExplained(cfg, env, next, ds[1..], h);
        OneEachLater(ds, h);
        StepElsewhere(cfg, env, p, d, h);
      }
    }
  }

  lemma OneEachLater(ds: seq<Decision>, h: string)
    requires OneEach(ds) && ds != [] && exists d :: d in ds[1..] && ForHost(d, h)
    ensures !ForHost(ds[0], h)
  {
    var d :| d in ds[1..] && ForHost(d, h);
    var j :| 0 <= j < |ds| - 1 && ds[1..][j] == d;
    assert ds[j + 1] == d;
  }

  /** So for a whole ApplyChanges. */
  lemma ApplyExplained(cfg: Config, env: Env, s: Store, pending: map<string, Reason>, ch: Changes, h: string)
    requires !cfg.dryRun && ValidStore(s) && OneChangeEach(ch)
    requires var q := RunAll(cfg, env, Begun(cfg, s, pending, ch), DecisionsFor(cfg, s, ch));
      h in q.pending && !SamePending(q.pending, pending, h)
    ensures h in s.live
    ensures Explains(cfg, env, s, h, RunAll(cfg, env, Begun(cfg, s, pending, ch), DecisionsFor(cfg, s, ch)).pending[h])
  {
    BatchPinned(cfg, s, ch);
    DecisionHosts(cfg, IndexFor(cfg, s, ch), ExistingFor(cfg, s, ch), SkippedFor(cfg, ch), ch);
    PendingExplained(cfg, env, Begun(cfg, s, pending, ch), DecisionsFor(cfg, s, ch), h);
  }

  // The reason is the host's own affair too.

  lemma RefusedNow(cfg: Config, env: Env, p: Progress, d: Decision)
    requires !cfg.dryRun && ValidStore(p.store) && d.Go? && PinnedDecision(p.store, d) && ListingFits(env, p, [d])
    requires Fate(AtHost(p.store, d.call.host), d.call, env(CallOp(KindOf(d.call)), d.call.host)).1.Conflict?
    ensures var q := Step(cfg, env, p, d).pending;
      d.call.host in q && Explains(cfg, env, p.store, d.call.host, q[d.call.host])
  {
    assert d in [d];
    PerformAtHost(p.store, d.call, env(CallOp(KindOf(d.call)), d.call.host));
  }

  /** A refused host ends the batch pending for the reason its holder was when the batch began. */
  lemma {:induction false} RefusedReason(cfg: Config, env: Env, p: Progress, ds: seq<Decision>, k: nat)
    requires !cfg.dryRun && ValidStore(p.store) && AllPinned(p.store, ds) && OneEach(ds) && ListingFits(env, p, ds)
    requires k < |ds| && ds[k].Go?
    requires var c := ds[k].call; Fate(AtHost(p.store, c.host), c, env(CallOp(KindOf(c)), c.host)).1.Conflict?
    ensures var h, q := ds[k].call.host, RunAll(cfg, env, p, ds).pending;
      h in q && Explains(cfg, env, p.store, h, q[h])
    decreases |ds|
  {
    var h, next := ds[k].call.host, Step(cfg, env, p, ds[0]);
    StepKeeps(cfg, env, p, ds[0]);
    if k == 0 {
      assert ds[0] in ds && forall d :: d in [ds[0]] ==> d in ds;
      RefusedNow(cfg, env, p, ds[0]);
      forall d | d in ds[1..]
        ensures !ForHost(d, h)
      {
        if ForHost(d, h) {
          OneEachLater(ds, h);
        }
      }
      RunAllElsewhere(cfg, env, next, ds[1..], h);
    } else {
      StepElsewhere(cfg, env, p, ds[0], h);
      ListingStillFits(cfg, env, p, ds);
      RefusedReason(cfg, env, next, ds[1..], k - 1);
    }
  }

  /** A holder explains a refusal in one way. */
  lemma OneExplanation(cfg: Config, env1: Env, env2: Env, s: Store, h: string, a: Reason, b: Reason)
    requires env1(ListAccount, "").Works? == env2(ListAccount, "").Works?
    requires Explains(cfg, env1, s, h, a) && Explains(cfg, env2, s, h, b)
    ensures a == b
  {
  }

  lemma ReasonsAlike(cfg: Config, env1: Env, env2: Env, p: Progress, ds: seq<Decision>, h: string)
    requires !cfg.dryRun && ValidStore(p.store) && AllPinned(p.store, ds) && OneEach(ds) && p.seen.None?
    requires AgreeOn(env1, env2, h) && env1(ListAccount, "").Works? == env2(ListAccount, "").Works?
    ensures SamePending(RunAll(cfg, env1, p, ds).pending, RunAll(cfg, env2, p, ds).pending, h)
  {
    if k: nat :| k < |ds| && ForHost(ds[k], h) {
      var c := ds[k].call;
      RunAllHere(cfg, env1, p, ds, k);
      RunAllHere(cfg, env2, p, ds, k);
      if Fate(AtHost(p.store, h), c, env1(CallOp(KindOf(c)), h)).1.Conflict? {
        RefusedReason(cfg, env1, p, ds, k);
        RefusedReason(cfg, env2, p, ds, k);
        OneExplanation(cfg, env1, env2, p.store, h, RunAll(cfg, env1, p, ds).pending[h],
          RunAll(cfg, env2, p, ds).pending[h]);
      }
    } else {
      RunAllElsewhere(cfg, env1, p, ds, h);
      RunAllElsewhere(cfg, env2, p, ds, h);
    }
  }

  /**
   Two runs of one batch as in PerHostIndependence, whose account-wide listing, if one is made, works in
   both or in neither: a host is pending in both or in neither, and for the same reason.
   */
  lemma PerHostReason(cfg: Config, env1: Env, env2: Env, s: Store, m: Rewrites, pending: map<string, Reason>,
    ch: Changes, h: string)
    requires !cfg.dryRun && ValidStore(s) && OneChangeEach(ch)
    requires ReadsWork(cfg, env1, ch) && ReadsWork(cfg, env2, ch)
    requires FragmentLeg(cfg, env1, Applying, m, ch).ok && FragmentLeg(cfg, env2, Applying, m, ch).ok
    requires AgreeOn(env1, env2, h) && env1(ListAccount, "").Works? == env2(ListAccount, "").Works?
    ensures SamePending(Apply(cfg, env1, s, m, pending, ch).progress.pending,
      Apply(cfg, env2, s, m, pending, ch).progress.pending, h)
  {
    if !IsEmptyPlan(ch) {
      BatchPinned(cfg, s, ch);
      DecisionHosts(cfg, IndexFor(cfg, s, ch), ExistingFor(cfg, s, ch), SkippedFor(cfg, ch), ch);
      ApplyRuns(cfg, env1, s, m, pending, ch);
      ApplyRuns(cfg, env2, s, m, pending, ch);
      ReasonsAlike(cfg, env1, env2, Begun(cfg, s, pending, ch), DecisionsFor(cfg, s, ch), h);
    }
  }
}
