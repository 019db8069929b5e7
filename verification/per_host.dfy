/**
 What a batch does to one hostname depends on that hostname's own route, decision and replies, and
 on nothing that happens to the other hostnames of the batch.
 */
module PerHost {
  import opened Wrappers
  import opened Text
  import opened Sorting
  import opened FragmentCodec
  import opened Resolver
  import opened Routes
  import opened Reconcile

  /** A route but for its id, which the account draws. */
  datatype Shape = Shape(hostname: string, tunnel: string, comment: string)

  function AtHost(s: Store, h: string): Option<Route> {
    if h in s.live then Some(s.live[h]) else None
  }

  function ShapeOf(r: Option<Route>): Option<Shape> {
    if r.None? then None else Some(Shape(r.value.hostname, r.value.tunnel, r.value.comment))
  }

  /** What becomes of the route at a call's hostname, and how the call is answered. */
  function Fate(r: Option<Route>, c: Call, reply: Reply): (Option<Shape>, Outcome) {
    var accepted := if c.Create? then r.None? else r.Some? && r.value.id == c.id;
    if reply.Fails? then (ShapeOf(r), Failed)
    else if !accepted then (ShapeOf(r), if c.Create? && reply.Works? then Conflict else Failed)
    else
      var after := match c
        case Delete(_, _) => None
        case Create(_, n, t, m) => Some(Shape(n, t, m))
        case Adopt(_, _, m) => Some(ShapeOf(r).value.(comment := m))
        case Retarget(_, _, t, m) =>
          Some(Shape(r.value.hostname, if t == "" then r.value.tunnel else t, if m == "" then r.value.comment else m));
      (after, if reply.Works? then Done else Failed)
  }

  predicate ForHost(d: Decision, h: string) {
    d.Go? && d.call.host == h
  }

  /** At most one decision of the batch makes a call for any hostname. */
  ghost predicate OneEach(ds: seq<Decision>) {
    forall i, j :: 0 <= i < j < |ds| && ds[i].Go? && ds[j].Go? ==> ds[i].call.host != ds[j].call.host
  }

  predicate SamePending(a: map<string, Reason>, b: map<string, Reason>, h: string) {
    (h in a <==> h in b) && (h in a ==> a[h] == b[h])
  }

  lemma StepElsewhere(cfg: Config, env: Env, p: Progress, d: Decision, h: string)
    requires ValidStore(p.store) && PinnedDecision(p.store, d) && !ForHost(d, h)
    ensures AtHost(Step(cfg, env, p, d).store, h) == AtHost(p.store, h)
    ensures SamePending(Step(cfg, env, p, d).pending, p.pending, h)
  {
    if d.Go? && !cfg.dryRun {
      PerformLocal(p.store, d.call, env(CallOp(KindOf(d.call)), d.call.host));
    }
  }

  /** A hostname no call is made for keeps its route and its pending state. */
  lemma {:induction false} RunAllElsewhere(cfg: Config, env: Env, p: Progress, ds: seq<Decision>, h: string)
    requires ValidStore(p.store) && AllPinned(p.store, ds)
    requires forall d :: d in ds ==> !ForHost(d, h)
    ensures AtHost(RunAll(cfg, env, p, ds).store, h) == AtHost(p.store, h)
    ensures SamePending(RunAll(cfg, env, p, ds).pending, p.pending, h)
    decreases |ds|
  {
    if ds != [] {
      StepElsewhere(cfg, env, p, ds[0], h);
      StepKeeps(cfg, env, p, ds[0]);
      RunAllElsewhere(cfg, env, Step(cfg, env, p, ds[0]), ds[1..], h);
    }
  }

  lemma StepHere(cfg: Config, env: Env, p: Progress, c: Call)
    requires !cfg.dryRun && ValidStore(p.store) && PinnedCall(p.store, c)
    ensures var q := Step(cfg, env, p, Go(c));
      var (shape, out) := Fate(AtHost(p.store, c.host), c, env(CallOp(KindOf(c)), c.host));
      && ShapeOf(AtHost(q.store, c.host)) == shape
      && q.errs == (if out.Failed? then p.errs + [CallFailed(c)] else p.errs)
      && (out.Conflict? ==> c.host in q.pending)
      && (out.Done? && c.Create? ==> c.host !in q.pending)
      && (out.Failed? || !c.Create? ==> SamePending(q.pending, p.pending, c.host))
  {
    PerformAtHost(p.store, c, env(CallOp(KindOf(c)), c.host));
  }

  /** The one call made for a hostname decides its route, whatever else the batch does. */
  lemma {:induction false} RunAllHere(cfg: Config, env: Env, p: Progress, ds: seq<Decision>, k: nat)
    requires !cfg.dryRun && ValidStore(p.store) && AllPinned(p.store, ds) && OneEach(ds)
    requires k < |ds| && ds[k].Go?
    ensures var q, c := RunAll(cfg, env, p, ds), ds[k].call;
      var (shape, out) := Fate(AtHost(p.store, c.host), c, env(CallOp(KindOf(c)), c.host));
      && ShapeOf(AtHost(q.store, c.host)) == shape
      && (out.Conflict? ==> c.host in q.pending)
      && (out.Done? && c.Create? ==> c.host !in q.pending)
      && (out.Failed? || !c.Create? ==> SamePending(q.pending, p.pending, c.host))
    decreases |ds|
  {
    var h := ds[k].call.host;
    var next := Step(cfg, env, p, ds[0]);
    StepKeeps(cfg, env, p, ds[0]);
    if k == 0 {
      StepHere(cfg, env, p, ds[0].call);
      forall d | d in ds[1..]
        ensures !ForHost(d, h)
      {
        var j :| 0 <= j < |ds| - 1 && ds[1..][j] == d;
        assert ds[j + 1] == d;
      }
      RunAllElsewhere(cfg, env, next, ds[1..], h);
    } else {
      StepElsewhere(cfg, env, p, ds[0], h);
      RunAllHere(cfg, env, next, ds[1..], k - 1);
    }
  }

  /** Whether a decision, carried out on the account as it was, reports a problem. */
  predicate Troubled(env: Env, s: Store, d: Decision) {
    match d
    case Skip => false
    case Bad(_) => true
    case Go(c) => Fate(AtHost(s, c.host), c, env(CallOp(KindOf(c)), c.host)).1.Failed?
  }

  /** The batch reports no new problem exactly when no host failed; a refusal as already routed is none. */
  lemma {:induction false} RunAllSilent(cfg: Config, env: Env, p: Progress, ds: seq<Decision>)
    requires !cfg.dryRun && ValidStore(p.store) && AllPinned(p.store, ds) && OneEach(ds)
    ensures p.errs <= RunAll(cfg, env, p, ds).errs
    ensures RunAll(cfg, env, p, ds).errs == p.errs <==> forall k :: 0 <= k < |ds| ==> !Troubled(env, p.store, ds[k])
    decreases |ds|
  {
    if ds != [] {
      var d, next := ds[0], Step(cfg, env, p, ds[0]);
      StepKeeps(cfg, env, p, d);
      if d.Go? {
        StepHere(cfg, env, p, d.call);
      }
      RunAllSilent(cfg, env, next, ds[1..]);
      forall k | 0 < k < |ds|
        ensures Troubled(env, next.store, ds[k]) <==> Troubled(env, p.store, ds[k])
      {
        if ds[k].Go? {
          StepElsewhere(cfg, env, p, d, ds[k].call.host);
        }
      }
      assert forall k :: 0 < k < |ds| ==> ds[1..][k - 1] == ds[k];
    }
  }

  /** The problems a batch reports about one host. */
  function ProblemHost(pr: Problem): Option<string> {
    match pr
    case Unanswerable(h, _) => Some(h)
    case NoTunnel(h) => Some(h)
    case AdoptRefused(h) => Some(h)
    case CallFailed(c) => Some(c.host)
    case ListFailed => None
    case FragmentFailed => None
  }

  function About(ps: seq<Problem>, h: string): seq<Problem> {
    if ps == [] then []
    else About(ps[..|ps| - 1], h) + if ProblemHost(ps[|ps| - 1]) == Some(h) then [ps[|ps| - 1]] else []
  }

  lemma AboutAppend(ps: seq<Problem>, pr: Problem, h: string)
    ensures About(ps + [pr], h) == About(ps, h) + if ProblemHost(pr) == Some(h) then [pr] else []
  {
    assert (ps + [pr])[..|ps|] == ps;
  }

  /** Two runs that stand alike on one host before a decision stand alike after it. */
  ghost predicate Alike(p: Progress, q: Progress, h: string) {
    && AtHost(p.store, h) == AtHost(q.store, h)
    && (h in p.pending <==> h in q.pending)
    && About(p.errs, h) == About(q.errs, h)
  }

  ghost predicate AlikeUpToId(p: Progress, q: Progress, h: string) {
    && ShapeOf(AtHost(p.store, h)) == ShapeOf(AtHost(q.store, h))
    && (h in p.pending <==> h in q.pending)
    && About(p.errs, h) == About(q.errs, h)
  }

  ghost predicate AgreeOn(env1: Env, env2: Env, h: string) {
    forall kind :: env1(CallOp(kind), h) == env2(CallOp(kind), h)
  }

  lemma StepAlike(cfg: Config, env1: Env, env2: Env, p: Progress, q: Progress, d: Decision, h: string)
    requires !cfg.dryRun && ValidStore(p.store) && ValidStore(q.store)
    requires PinnedDecision(p.store, d) && PinnedDecision(q.store, d)
    requires AgreeOn(env1, env2, h) && Alike(p, q, h)
    ensures AlikeUpToId(Step(cfg, env1, p, d), Step(cfg, env2, q, d), h)
    ensures !ForHost(d, h) ==> Alike(Step(cfg, env1, p, d), Step(cfg, env2, q, d), h)
  {
    var p', q' := Step(cfg, env1, p, d), Step(cfg, env2, q, d);
    match d
    case Skip =>
    case Bad(pr) =>
      AboutAppend(p.errs, pr, h);
      AboutAppend(q.errs, pr, h);
    case Go(c) =>
      AboutAppend(p.errs, CallFailed(c), h);
      AboutAppend(q.errs, CallFailed(c), h);
      StepHere(cfg, env1, p, c);
      StepHere(cfg, env2, q, c);
      if c.host != h {
        StepElsewhere(cfg, env1, p, d, h);
        StepElsewhere(cfg, env2, q, d, h);
      }
  }

  lemma {:induction false} RunAllAlike(cfg: Config, env1: Env, env2: Env, p: Progress, q: Progress, ds: seq<Decision>,
    h: string)
    requires !cfg.dryRun && ValidStore(p.store) && ValidStore(q.store)
    requires AllPinned(p.store, ds) && AllPinned(q.store, ds) && OneEach(ds)
    requires AgreeOn(env1, env2, h)
    requires Alike(p, q, h) || (AlikeUpToId(p, q, h) && forall d :: d in ds ==> !ForHost(d, h))
    ensures AlikeUpToId(RunAll(cfg, env1, p, ds), RunAll(cfg, env2, q, ds), h)
    decreases |ds|
  {
    if ds != [] {
      var d := ds[0];
      StepKeeps(cfg, env1, p, d);
      StepKeeps(cfg, env2, q, d);
      if Alike(p, q, h) {
        StepAlike(cfg, env1, env2, p, q, d, h);
        if ForHost(d, h) {
          forall e | e in ds[1..]
            ensures !ForHost(e, h)
          {
            var j :| 0 <= j < |ds| - 1 && ds[1..][j] == e;
            assert ds[j + 1] == e;
          }
        }
      } else {
        StepElsewhere(cfg, env1, p, d, h);
        StepElsewhere(cfg, env2, q, d, h);
        ElsewhereProblems(cfg, env1, p, d, h);
        ElsewhereProblems(cfg, env2, q, d, h);
      }
      RunAllAlike(cfg, env1, env2, Step(cfg, env1, p, d), Step(cfg, env2, q, d), ds[1..], h);
    }
  }

  lemma ElsewhereProblems(cfg: Config, env: Env, p: Progress, d: Decision, h: string)
    requires !ForHost(d, h)
    ensures About(Step(cfg, env, p, d).errs, h) ==
      About(p.errs, h) + if d.Bad? && ProblemHost(d.problem) == Some(h) then [d.problem] else []
  {
    match d
    case Skip =>
    case Bad(pr) => AboutAppend(p.errs, pr, h);
    case Go(c) => AboutAppend(p.errs, CallFailed(c), h);
  }

  /** No hostname is planned twice. */
  ghost predicate OneChangeEach(ch: Changes) {
    var all := ch.delete + ch.update + ch.create;
    forall i, j :: 0 <= i < j < |all| ==> Key(all[i]) != Key(all[j])
  }

  lemma DecisionHosts(cfg: Config, index: Index, existing: Index, skipped: map<string, Why>, ch: Changes)
    ensures var all, ds := ch.delete + ch.update + ch.create, Decisions(cfg, index, existing, skipped, ch);
      |ds| == |all| && forall i :: 0 <= i < |ds| && ds[i].Go? ==> ds[i].call.host == Key(all[i])
    ensures OneChangeEach(ch) ==> OneEach(Decisions(cfg, index, existing, skipped, ch))
  {
  }

  lemma ApplyRuns(cfg: Config, env: Env, s: Store, m: Rewrites, pending: map<string, Reason>, ch: Changes)
    requires !IsEmptyPlan(ch) && ReadsWork(cfg, env, ch) && FragmentLeg(cfg, env, Applying, m, ch).ok
    ensures Apply(cfg, env, s, m, pending, ch).progress ==
      RunAll(cfg, env, Begun(cfg, s, pending, ch), DecisionsFor(cfg, s, ch))
    ensures Apply(cfg, env, s, m, pending, ch).rewrites == FragmentLeg(cfg, env, Applying, m, ch).after
  {
  }

  lemma LegsAgree(cfg: Config, env1: Env, env2: Env, m: Rewrites, ch: Changes)
    requires FragmentLeg(cfg, env1, Applying, m, ch).ok && FragmentLeg(cfg, env2, Applying, m, ch).ok
    ensures FragmentLeg(cfg, env1, Applying, m, ch).after == FragmentLeg(cfg, env2, Applying, m, ch).after
  {
  }

  /**
   Two runs of one batch whose listings and fragment edit work: a host ends with the same route (but
   for the id drawn) and the same problems, pending in both or in neither, whatever else fails around it.
   */
  lemma PerHostIndependence(cfg: Config, env1: Env, env2: Env, s: Store, m: Rewrites, pending: map<string, Reason>,
    ch: Changes, h: string)
    requires !cfg.dryRun && ValidStore(s) && OneChangeEach(ch)
    requires ReadsWork(cfg, env1, ch) && ReadsWork(cfg, env2, ch)
    requires FragmentLeg(cfg, env1, Applying, m, ch).ok && FragmentLeg(cfg, env2, Applying, m, ch).ok
    requires AgreeOn(env1, env2, h)
    ensures var a, b := Apply(cfg, env1, s, m, pending, ch), Apply(cfg, env2, s, m, pending, ch);
      AlikeUpToId(a.progress, b.progress, h) && a.rewrites == b.rewrites
  {
    if !IsEmptyPlan(ch) {
      BatchPinned(cfg, s, ch);
      DecisionHosts(cfg, IndexFor(cfg, s, ch), ExistingFor(cfg, s, ch), SkippedFor(cfg, ch), ch);
      ApplyRuns(cfg, env1, s, m, pending, ch);
      ApplyRuns(cfg, env2, s, m, pending, ch);
      LegsAgree(cfg, env1, env2, m, ch);
      var p := Begun(cfg, s, pending, ch);
      RunAllAlike(cfg, env1, env2, p, p, DecisionsFor(cfg, s, ch), h);
    }
  }

  /** ApplyChanges returns no error exactly when nothing failed; an already-routed refusal is no failure. */
  lemma ApplySilent(cfg: Config, env: Env, s: Store, m: Rewrites, pending: map<string, Reason>, ch: Changes)
    requires !cfg.dryRun && ValidStore(s) && OneChangeEach(ch) && !IsEmptyPlan(ch)
    ensures Apply(cfg, env, s, m, pending, ch).progress.errs == [] <==>
      && ReadsWork(cfg, env, ch) && FragmentLeg(cfg, env, Applying, m, ch).ok && SkippedFor(cfg, ch) == map[]
      && forall k :: 0 <= k < |DecisionsFor(cfg, s, ch)| ==> !Troubled(env, s, DecisionsFor(cfg, s, ch)[k])
  {
    BatchPinned(cfg, s, ch);
    DecisionHosts(cfg, IndexFor(cfg, s, ch), ExistingFor(cfg, s, ch), SkippedFor(cfg, ch), ch);
    var skipped := SkippedFor(cfg, ch);
    SortSetElements(skipped.Keys);
    assert SkippedProblems(skipped) == [] <==> skipped == map[];
    RunAllSilent(cfg, env, Begun(cfg, s, pending, ch), DecisionsFor(cfg, s, ch));
  }
}
