/**
 Dry run is the real run with the mutations left out: the same reads, the same decisions, the same
 validation errors, and a report of exactly the calls and edits the real run attempts.
 */
module DryRun {
  import opened Wrappers
  import opened Text
  import opened Sorting
  import opened FragmentCodec
  import opened Resolver
  import opened Routes
  import opened Reconcile
  import opened PerHost
  import opened Stabilise

  function Calls(ds: seq<Decision>): seq<Call> {
    if ds == [] then [] else (if ds[0].Go? then [ds[0].call] else []) + Calls(ds[1..])
  }

  function Refusals(ds: seq<Decision>): seq<Problem> {
    if ds == [] then [] else (if ds[0].Bad? then [ds[0].problem] else []) + Refusals(ds[1..])
  }

  /** Problems found before any call is made. */
  function Validation(ps: seq<Problem>): seq<Problem> {
    if ps == [] then []
    else Validation(ps[..|ps| - 1]) + if ps[|ps| - 1].CallFailed? then [] else [ps[|ps| - 1]]
  }

  lemma ValidationAppend(ps: seq<Problem>, pr: Problem)
    ensures Validation(ps + [pr]) == Validation(ps) + if pr.CallFailed? then [] else [pr]
  {
    assert (ps + [pr])[..|ps|] == ps;
  }

  /** Both modes log the same calls, decided before the first of them. */
  lemma {:induction false} LogIsCalls(cfg: Config, env: Env, p: Progress, ds: seq<Decision>)
    ensures RunAll(cfg, env, p, ds).log == p.log + Calls(ds)
    decreases |ds|
  {
    if ds != [] {
      LogIsCalls(cfg, env, Step(cfg, env, p, ds[0]), ds[1..]);
    }
  }

  lemma StepErrors(cfg: Config, env: Env, p: Progress, d: Decision)
    ensures var more := Step(cfg, env, p, d).errs;
      more == p.errs || more == p.errs + (if d.Bad? then [d.problem] else if d.Go? then [CallFailed(d.call)] else [])
    ensures d.Bad? ==> Step(cfg, env, p, d).errs == p.errs + [d.problem]
  {
  }

  lemma {:induction false} ErrorsAreRefusals(cfg: Config, env: Env, p: Progress, ds: seq<Decision>)
    ensures Validation(RunAll(cfg, env, p, ds).errs) == Validation(p.errs) + Validation(Refusals(ds))
    decreases |ds|
  {
    if ds != [] {
      var d, rest := ds[0], Refusals(ds[1..]);
      StepErrors(cfg, env, p, d);
      ErrorsAreRefusals(cfg, env, Step(cfg, env, p, d), ds[1..]);
      if d.Bad? {
        ValidationAppend(p.errs, d.problem);
        ValidationPrepend(d.problem, rest);
      } else {
        assert Refusals(ds) == rest;
        if d.Go? {
          ValidationAppend(p.errs, CallFailed(d.call));
        }
      }
    }
  }

  lemma {:induction false} ValidationPrepend(pr: Problem, ps: seq<Problem>)
    ensures Validation([pr] + ps) == (if pr.CallFailed? then [] else [pr]) + Validation(ps)
  {
    if ps == [] {
      assert [pr] + ps == [] + [pr];
      ValidationAppend([], pr);
    } else {
      ValidationPrepend(pr, ps[..|ps| - 1]);
      assert ([pr] + ps)[..|ps|] == [pr] + ps[..|ps| - 1];
    }
  }

  lemma {:induction false} DryRunErrors(cfg: Config, env: Env, p: Progress, ds: seq<Decision>)
    requires cfg.dryRun
    ensures RunAll(cfg, env, p, ds).errs == p.errs + Refusals(ds)
    decreases |ds|
  {
    if ds != [] {
      DryRunErrors(cfg, env, Step(cfg, env, p, ds[0]), ds[1..]);
    }
  }

  // Nothing that is decided depends on the mode.

  function Dry(cfg: Config): Config {
    cfg.(dryRun := true)
  }

  lemma {:induction false} SameFragmentPlan(cfg: Config, create: seq<Endpoint>)
    ensures Adds(Dry(cfg), create) == Adds(cfg, create) && Skips(Dry(cfg), create) == Skips(cfg, create)
  {
    if create != [] {
      SameFragmentPlan(cfg, create[..|create| - 1]);
    }
  }

  lemma {:induction false} SameRemoves(cfg: Config, eps: seq<Endpoint>)
    ensures Removes(Dry(cfg), eps) == Removes(cfg, eps)
  {
    if eps != [] {
      SameRemoves(cfg, eps[..|eps| - 1]);
    }
  }

  lemma {:induction false} SameAdjust(cfg: Config, eps: seq<Endpoint>)
    ensures Adjust(Dry(cfg), eps) == Adjust(cfg, eps)
  {
    if eps != [] {
      SameAdjust(cfg, eps[..|eps| - 1]);
    }
  }

  lemma SameIndexes(cfg: Config, s: Store)
    ensures OwnedIndex(Dry(cfg), s) == OwnedIndex(cfg, s) && ListedIndex(Dry(cfg), s) == ListedIndex(cfg, s)
    ensures Reported(Dry(cfg), s) == Reported(cfg, s)
  {
  }

  lemma SameReads(cfg: Config, s: Store, ch: Changes)
    ensures IndexFor(Dry(cfg), s, ch) == IndexFor(cfg, s, ch) && ExistingFor(Dry(cfg), s, ch) == ExistingFor(cfg, s, ch)
  {
    SameIndexes(cfg, s);
  }

  lemma SameChoices(cfg: Config, index: Index, existing: Index, skipped: map<string, Why>, ch: Changes)
    ensures Decisions(Dry(cfg), index, existing, skipped, ch) == Decisions(cfg, index, existing, skipped, ch)
  {
    assert DecideDeletes(Dry(cfg), index, ch.delete) == DecideDeletes(cfg, index, ch.delete);
    assert DecideUpdates(Dry(cfg), index, ch.update) == DecideUpdates(cfg, index, ch.update);
    assert DecideCreates(Dry(cfg), existing, skipped, ch.create) == DecideCreates(cfg, existing, skipped, ch.create);
  }

  lemma SameDecisions(cfg: Config, s: Store, ch: Changes)
    ensures DecisionsFor(Dry(cfg), s, ch) == DecisionsFor(cfg, s, ch)
    ensures FragmentIntent(Dry(cfg), ch) == FragmentIntent(cfg, ch)
    ensures SkippedFor(Dry(cfg), ch) == SkippedFor(cfg, ch)
  {
    SameFragmentPlan(cfg, ch.create);
    SameRemoves(cfg, ch.delete);
    SameReads(cfg, s, ch);
    SameChoices(cfg, IndexFor(cfg, s, ch), ExistingFor(cfg, s, ch), SkippedFor(cfg, ch), ch);
  }

  /**
   Dry run changes nothing, on any path: ApplyChanges leaves the account, the fragment and the pending
   hosts, and AdjustEndpoints, which never calls the account, leaves the fragment through repair and prune.
   */
  lemma DryRunChangesNothing(cfg: Config, env: Env, s: Store, m: Rewrites, pending: map<string, Reason>, ch: Changes,
    recordsHosts: set<string>, recordsOK: bool, owned: set<string>, eps: seq<Endpoint>)
    requires cfg.dryRun
    ensures var a := Apply(cfg, env, s, m, pending, ch);
      a.progress.store == s && a.progress.pending == pending && a.rewrites == m && !a.wrote
    ensures var b := AdjustLeg(cfg, env, m, pending, recordsHosts, recordsOK, owned, eps);
      b.rewrites == m && b.writes == 0
  {
    if !IsEmptyPlan(ch) && ReadsWork(cfg, env, ch) {
      DryRunKeepsStore(cfg, env, Begun(cfg, s, pending, ch), DecisionsFor(cfg, s, ch));
    }
  }

  /**
   From one state, with the same listings and a fragment write that succeeds, dry run reports exactly
   the calls the real run attempts, in order, and exactly its validation errors.
   */
  lemma DryRunReportsRealRun(cfg: Config, env: Env, s: Store, m: Rewrites, pending: map<string, Reason>, ch: Changes)
    requires !cfg.dryRun && FragmentLeg(cfg, env, Applying, m, ch).ok
    ensures var dry, live := Apply(Dry(cfg), env, s, m, pending, ch), Apply(cfg, env, s, m, pending, ch);
      && dry.progress.log == live.progress.log
      && Validation(dry.progress.errs) == Validation(live.progress.errs)
      && dry.progress.errs == Validation(dry.progress.errs)
      && FragmentIntent(Dry(cfg), ch) == FragmentIntent(cfg, ch)
  {
    SameDecisions(cfg, s, ch);
    SameFragmentPlan(cfg, ch.create);
    ValidationAppend([], ListFailed);
    if !IsEmptyPlan(ch) && ReadsWork(cfg, env, ch) {
      var ds := DecisionsFor(cfg, s, ch);
      LogIsCalls(cfg, env, Begun(cfg, s, pending, ch), ds);
      LogIsCalls(Dry(cfg), env, Begun(Dry(cfg), s, pending, ch), ds);
      ErrorsAreRefusals(cfg, env, Begun(cfg, s, pending, ch), ds);
      ErrorsAreRefusals(Dry(cfg), env, Begun(Dry(cfg), s, pending, ch), ds);
      DryRunErrors(Dry(cfg), env, Begun(Dry(cfg), s, pending, ch), ds);
      OnlyRefusals(cfg, IndexFor(cfg, s, ch), ExistingFor(cfg, s, ch), SkippedFor(cfg, ch), ch);
      NoCallsFailed(Begun(Dry(cfg), s, pending, ch).errs + Refusals(ds));
    }
  }

  lemma {:induction false} NoCallsFailed(ps: seq<Problem>)
    requires forall pr :: pr in ps ==> !pr.CallFailed?
    ensures Validation(ps) == ps
  {
    if ps != [] {
      NoCallsFailed(ps[..|ps| - 1]);
    }
  }

  lemma {:induction false} RefusalsAre(ds: seq<Decision>)
    requires forall d :: d in ds && d.Bad? ==> !d.problem.CallFailed?
    ensures forall pr :: pr in Refusals(ds) ==> !pr.CallFailed?
    decreases |ds|
  {
    if ds != [] {
      RefusalsAre(ds[1..]);
    }
  }

  lemma OnlyRefusals(cfg: Config, index: Index, existing: Index, skipped: map<string, Why>, ch: Changes)
    ensures forall pr :: pr in Refusals(Decisions(cfg, index, existing, skipped, ch)) ==> !pr.CallFailed?
  {
    RefusalsAre(Decisions(cfg, index, existing, skipped, ch));
  }

  /** Every rewrite the repair adds is desired. */
  lemma RepairIsDesired(cfg: Config, eps: seq<Endpoint>, hosts: set<string>)
    ensures Adds(cfg, Repair(cfg, eps, hosts).create).Keys <= Keys(Adjust(cfg, eps))
  {
    var create := Repair(cfg, eps, hosts).create;
    ExistingAt(Adjust(cfg, eps), hosts);
    KeysAre(Adjust(cfg, eps));
    forall h | h in Adds(cfg, create)
      ensures h in Keys(Adjust(cfg, eps))
    {
      AddsAt(cfg, create, h);
      var i :| 0 <= i < |create| && Key(create[i]) == h;
      assert create[i] in create;
    }
  }

  lemma StaleIgnoresDesired(cfg: Config, m: Rewrites, add: Rewrites, owned: set<string>, desired: set<string>)
    requires add.Keys <= desired
    ensures Stale(Dry(cfg), m, owned, desired) == Stale(cfg, Edited(m, add, []), owned, desired)
  {
  }

  lemma LegOkEdits(cfg: Config, env: Env, stage: Stage, m: Rewrites, ch: Changes)
    requires !cfg.dryRun && ch.delete == [] && FragmentLeg(cfg, env, stage, m, ch).ok
    ensures cfg.coredns ==> FragmentLeg(cfg, env, stage, m, ch).after == Edited(m, Adds(cfg, ch.create), [])
  {
    assert Edited(m, map[], []) == m;
    assert Removes(cfg, ch.delete) == [];
  }

  /**
   AdjustEndpoints in dry run asks for the same edits, although the repair it would have made first
   was suppressed: what the repair adds is desired, so prune never looks at it.
   */
  lemma DryRunAdjust(cfg: Config, env: Env, m: Rewrites, pending: map<string, Reason>,
    recordsHosts: set<string>, recordsOK: bool, owned: set<string>, eps: seq<Endpoint>)
    requires !cfg.dryRun && FragmentLeg(cfg, env, Reconciling, m, Repair(cfg, eps, recordsHosts)).ok
    ensures var dry := AdjustLeg(Dry(cfg), env, m, pending, recordsHosts, recordsOK, owned, eps);
      var live := AdjustLeg(cfg, env, m, pending, recordsHosts, recordsOK, owned, eps);
      && dry.rewrites == m && dry.writes == 0
      && dry.ok == live.ok && dry.pending == live.pending && dry.edits == live.edits
  {
    SameAdjust(cfg, eps);
    var ch, desired := Repair(cfg, eps, recordsHosts), Keys(Adjust(cfg, eps));
    SameFragmentPlan(cfg, ch.create);
    LegOkEdits(cfg, env, Reconciling, m, ch);
    RepairIsDesired(cfg, eps, recordsHosts);
    StaleIgnoresDesired(cfg, m, Adds(cfg, ch.create), owned, desired);
  }
}
