/**
 An instance running alone: its small steps add up to exactly the reconciliation that Reconcile
 describes as a whole, so every cycle of the step-by-step machine can complete.
 */
module Solo {
  import opened Wrappers
  import opened Text
  import opened Sorting
  import opened FragmentCodec
  import opened Resolver
  import opened Routes
  import opened Reconcile
  import opened Protocol

  /** What an instance is given for one cycle: its network, its demand, and a plan made for this view. */
  datatype Drive = Drive(env: Env, eps: seq<Endpoint>, ch: Changes, view: Index)

  /** The planner, if it is asked now, is asked with that view and that demand. */
  predicate Fits(cfg: Config, d: Drive, x: Inst) {
    x.phase.Planning? ==> x.phase.seen == d.view && x.phase.desired == Adjust(cfg, d.eps)
  }

  /** n steps of one instance, nobody else running. */
  ghost function Alone(cfg: Config, s: Store, x: Inst, d: Drive, n: nat): (Store, Inst)
    decreases n
  {
    if n == 0 then (s, x)
    else
      var (s1, x1) := NextInst(cfg, s, x, d.env, d.eps, d.ch);
      Alone(cfg, s1, x1, d, n - 1)
  }

  lemma {:induction false} AlonePlus(cfg: Config, s: Store, x: Inst, d: Drive, n: nat, m: nat)
    ensures var at := Alone(cfg, s, x, d, n); Alone(cfg, s, x, d, n + m) == Alone(cfg, at.0, at.1, d, m)
    decreases n
  {
    if n > 0 {
      var next := NextInst(cfg, s, x, d.env, d.eps, d.ch);
      AlonePlus(cfg, next.0, next.1, d, n - 1, m);
    }
  }

  /** Running alone, the instance gets from one state to another, its plan fitting on the way. */
  ghost predicate Reaches(cfg: Config, d: Drive, s: Store, x: Inst, s1: Store, x1: Inst) {
    exists n: nat :: Alone(cfg, s, x, d, n) == (s1, x1) && FitsAlong(cfg, d, s, x, n)
  }

  ghost predicate FitsAlong(cfg: Config, d: Drive, s: Store, x: Inst, n: nat) {
    forall m: nat :: m < n ==> Fits(cfg, d, Alone(cfg, s, x, d, m).1)
  }

  lemma ReachesSelf(cfg: Config, d: Drive, s: Store, x: Inst)
    ensures Reaches(cfg, d, s, x, s, x)
  {
    assert Alone(cfg, s, x, d, 0) == (s, x) && FitsAlong(cfg, d, s, x, 0);
  }

  lemma ReachesThen(cfg: Config, d: Drive, s: Store, x: Inst, s1: Store, x1: Inst, s2: Store, x2: Inst)
    requires Reaches(cfg, d, s, x, s1, x1) && Reaches(cfg, d, s1, x1, s2, x2)
    ensures Reaches(cfg, d, s, x, s2, x2)
  {
    var n: nat :| Alone(cfg, s, x, d, n) == (s1, x1) && FitsAlong(cfg, d, s, x, n);
    var m: nat :| Alone(cfg, s1, x1, d, m) == (s2, x2) && FitsAlong(cfg, d, s1, x1, m);
    AlonePlus(cfg, s, x, d, n, m);
    forall k: nat | k < n + m
      ensures Fits(cfg, d, Alone(cfg, s, x, d, k).1)
    {
      if k >= n {
        AlonePlus(cfg, s, x, d, n, k - n);
      }
    }
    assert FitsAlong(cfg, d, s, x, n + m);
  }

  lemma ReachesNext(cfg: Config, d: Drive, s: Store, x: Inst, s1: Store, x1: Inst)
    requires Fits(cfg, d, x) && NextInst(cfg, s, x, d.env, d.eps, d.ch) == (s1, x1)
    ensures Reaches(cfg, d, s, x, s1, x1)
  {
    assert Alone(cfg, s1, x1, d, 0) == (s1, x1);
    assert Alone(cfg, s, x, d, 1) == (s1, x1);
    assert Alone(cfg, s, x, d, 0) == (s, x);
    assert FitsAlong(cfg, d, s, x, 1);
  }

  lemma StepThenReaches(cfg: Config, d: Drive, s: Store, x: Inst, s1: Store, x1: Inst, s2: Store, x2: Inst)
    requires Fits(cfg, d, x) && NextInst(cfg, s, x, d.env, d.eps, d.ch) == (s1, x1) && Reaches(cfg, d, s1, x1, s2, x2)
    ensures Reaches(cfg, d, s, x, s2, x2)
  {
    ReachesNext(cfg, d, s, x, s1, x1);
    ReachesThen(cfg, d, s, x, s1, x1, s2, x2);
  }

  function Times(i: nat, d: Drive, n: nat): seq<Label> {
    seq(n, k => Act(i, d.env, d.eps, d.ch))
  }

  /** The machine, scheduling one instance only, does what that instance does alone. */
  lemma {:induction false} RunTimes(cfgs: seq<Config>, w: World, i: nat, d: Drive, n: nat)
    requires WellNumbered(cfgs, w) && i < |cfgs|
    ensures var (s, x) := Alone(cfgs[i], w.store, w.insts[i], d, n);
      Run(cfgs, w, Times(i, d, n)) == World(s, w.insts[i := x])
    decreases n
  {
    if n == 0 {
      assert w.insts[i := w.insts[i]] == w.insts;
    } else {
      var l := Act(i, d.env, d.eps, d.ch);
      assert Times(i, d, n) == [l] + Times(i, d, n - 1);
      var w1 := Next(cfgs, w, l);
      RunTimes(cfgs, w1, i, d, n - 1);
      var (s, x) := Alone(cfgs[i], w.store, w.insts[i], d, n);
      assert w1.insts[i := x] == w.insts[i := x];
    }
  }

  /** A schedule that takes one instance where it gets to alone. */
  lemma RunReaches(cfgs: seq<Config>, w: World, i: nat, d: Drive, s1: Store, x1: Inst) returns (ls: seq<Label>)
    requires WellNumbered(cfgs, w) && i < |cfgs| && Reaches(cfgs[i], d, w.store, w.insts[i], s1, x1)
    ensures Run(cfgs, w, ls) == World(s1, w.insts[i := x1])
  {
    var n: nat :| Alone(cfgs[i], w.store, w.insts[i], d, n) == (s1, x1) &&
      FitsAlong(cfgs[i], d, w.store, w.insts[i], n);
    RunTimes(cfgs, w, i, d, n);
    ls := Times(i, d, n);
  }

  lemma SelectedGrows(cfg: Config, which: Which, s: Store, ts: seq<string>, t: string)
    ensures Selected(cfg, which, s, ts) + Selected(cfg, which, s, [t]) == Selected(cfg, which, s, ts + [t])
  {
  }

  lemma SelectedNone(cfg: Config, which: Which, s: Store)
    ensures Selected(cfg, which, s, []) == map[]
  {
  }

  /** What is still to be listed, and what was. */
  lemma SplitNext(all: seq<string>, done: seq<string>, rest: seq<string>)
    requires all == done + rest && rest != []
    ensures all == (done + [rest[0]]) + rest[1..] && rest[0] in all
  {
    assert all[|done|] == rest[0];
  }

  lemma {:induction false} ListsAll(cfg: Config, d: Drive, s: Store, x: Inst, done: seq<string>, rest: seq<string>)
    requires x.phase == Listing(rest, Selected(cfg, Own, s, done)) && Tunnels(cfg.resolver) == done + rest
    requires ListsWork(cfg, d.env, ListRecords)
    ensures Reaches(cfg, d, s, x, s, Report(cfg, x, OwnedIndex(cfg, s)))
    decreases |rest|
  {
    if rest == [] {
      assert done + rest == done;
      ReachesNext(cfg, d, s, x, s, Report(cfg, x, OwnedIndex(cfg, s)));
    } else {
      SplitNext(Tunnels(cfg.resolver), done, rest);
      SelectedGrows(cfg, Own, s, done, rest[0]);
      var x1 := x.(phase := Listing(rest[1..], Selected(cfg, Own, s, done + [rest[0]])));
      ListsAll(cfg, d, s, x1, done + [rest[0]], rest[1..]);
      StepThenReaches(cfg, d, s, x, s, x1, s, Report(cfg, x, OwnedIndex(cfg, s)));
    }
  }

  lemma {:induction false} IndexesAll(cfg: Config, d: Drive, s: Store, x: Inst, ch: Changes, done: seq<string>,
    rest: seq<string>)
    requires x.phase == Indexing(ch, rest, Selected(cfg, Own, s, done)) && Tunnels(cfg.resolver) == done + rest
    requires ListsWork(cfg, d.env, ListOwned)
    ensures Reaches(cfg, d, s, x, s, x.(phase := Indexing(ch, [], OwnedIndex(cfg, s))))
    decreases |rest|
  {
    if rest == [] {
      assert done + rest == done;
      ReachesSelf(cfg, d, s, x);
    } else {
      SplitNext(Tunnels(cfg.resolver), done, rest);
      SelectedGrows(cfg, Own, s, done, rest[0]);
      var x1 := x.(phase := Indexing(ch, rest[1..], Selected(cfg, Own, s, done + [rest[0]])));
      IndexesAll(cfg, d, s, x1, ch, done + [rest[0]], rest[1..]);
      StepThenReaches(cfg, d, s, x, s, x1, s, x.(phase := Indexing(ch, [], OwnedIndex(cfg, s))));
    }
  }

  lemma {:induction false} ClaimsAll(cfg: Config, d: Drive, s: Store, x: Inst, ch: Changes, index: Index,
    done: seq<string>, rest: seq<string>)
    requires x.phase == Claiming(ch, index, rest, Selected(cfg, Any, s, done)) && Tunnels(cfg.resolver) == done + rest
    requires ListsWork(cfg, d.env, ListAdoption)
    ensures Reaches(cfg, d, s, x, s, x.(phase := Claiming(ch, index, [], ListedIndex(cfg, s))))
    decreases |rest|
  {
    if rest == [] {
      assert done + rest == done;
      ReachesSelf(cfg, d, s, x);
    } else {
      SplitNext(Tunnels(cfg.resolver), done, rest);
      SelectedGrows(cfg, Any, s, done, rest[0]);
      var x1 := x.(phase := Claiming(ch, index, rest[1..], Selected(cfg, Any, s, done + [rest[0]])));
      ClaimsAll(cfg, d, s, x1, ch, index, done + [rest[0]], rest[1..]);
      StepThenReaches(cfg, d, s, x, s, x1, s, x.(phase := Claiming(ch, index, [], ListedIndex(cfg, s))));
    }
  }

  lemma ReadsOwned(cfg: Config, d: Drive, s: Store, x: Inst, ch: Changes)
    requires x.phase == Indexing(ch, if NeedsIndex(ch) then Tunnels(cfg.resolver) else [], map[])
    requires NeedsIndex(ch) ==> ListsWork(cfg, d.env, ListOwned)
    ensures Reaches(cfg, d, s, x, s, x.(phase := Indexing(ch, [], IndexFor(cfg, s, ch))))
  {
    SelectedNone(cfg, Own, s);
    if NeedsIndex(ch) {
      assert [] + Tunnels(cfg.resolver) == Tunnels(cfg.resolver);
      IndexesAll(cfg, d, s, x, ch, [], Tunnels(cfg.resolver));
    } else {
      ReachesSelf(cfg, d, s, x);
    }
  }

  lemma ReadsClaims(cfg: Config, d: Drive, s: Store, x: Inst, ch: Changes, index: Index)
    requires x.phase == Claiming(ch, index, if NeedsExisting(cfg, ch) then Tunnels(cfg.resolver) else [], map[])
    requires ReadsWork(cfg, d.env, ch)
    ensures Reaches(cfg, d, s, x, s, x.(phase := Writing(ch, index, ExistingFor(cfg, s, ch))))
  {
    SelectedNone(cfg, Any, s);
    var x1 := x.(phase := Claiming(ch, index, [], ExistingFor(cfg, s, ch)));
    if NeedsExisting(cfg, ch) {
      assert [] + Tunnels(cfg.resolver) == Tunnels(cfg.resolver);
      ClaimsAll(cfg, d, s, x, ch, index, [], Tunnels(cfg.resolver));
    } else {
      ReachesSelf(cfg, d, s, x);
    }
    var x2 := x.(phase := Writing(ch, index, ExistingFor(cfg, s, ch)));
    ReachesNext(cfg, d, s, x1, s, x2);
    ReachesThen(cfg, d, s, x, s, x1, s, x2);
  }

  /** From a plan to the fragment write, with both indexes read. */
  lemma ReadsAll(cfg: Config, d: Drive, s: Store, x: Inst, ch: Changes)
    requires x.phase == Indexing(ch, if NeedsIndex(ch) then Tunnels(cfg.resolver) else [], map[])
    requires ReadsWork(cfg, d.env, ch)
    ensures Reaches(cfg, d, s, x, s, x.(phase := Writing(ch, IndexFor(cfg, s, ch), ExistingFor(cfg, s, ch))))
  {
    var index := IndexFor(cfg, s, ch);
    var x1 := x.(phase := Indexing(ch, [], index));
    var x2 := x.(phase := Claiming(ch, index, if NeedsExisting(cfg, ch) then Tunnels(cfg.resolver) else [], map[]));
    var x3 := x.(phase := Writing(ch, index, ExistingFor(cfg, s, ch)));
    ReadsOwned(cfg, d, s, x, ch);
    ReadsClaims(cfg, d, s, x2, ch, index);
    StepThenReaches(cfg, d, s, x1, s, x2, s, x3);
    ReachesThen(cfg, d, s, x, s, x1, s, x3);
  }

  // The calls.

  /** What carrying out all decisions leaves of the instance. */
  predicate CallsMade(x: Inst, p: Progress, q: Progress, x1: Inst) {
    && x1.rewrites == x.rewrites && x1.pending == q.pending && x1.started == x.started && x1.lastGood == x.lastGood
    && x1.recordsHosts == x.recordsHosts && x1.ownedHosts == x.ownedHosts && x1.recordsOK == x.recordsOK
    && x1.faultless == (x.faultless && q.errs == p.errs)
  }

  lemma StepAnyErrs(cfg: Config, env: Env, p: Progress, d: Decision)
    ensures var q, q0 := Step(cfg, env, p, d), Step(cfg, env, p.(errs := [], log := []), d);
      && q.store == q0.store && q.pending == q0.pending && q.seen == q0.seen
      && (q.errs == p.errs <==> q0.errs == []) && p.errs <= q.errs
  {
  }

  lemma {:induction false} CallsAll(cfg: Config, d: Drive, s: Store, x: Inst, index: Index, existing: Index,
    todo: seq<Decision>, p: Progress) returns (x1: Inst)
    requires x.phase == Calling(index, existing, todo, p.seen) && p.store == s && p.pending == x.pending
    ensures x1.phase == Calling(index, existing, [], RunAll(cfg, d.env, p, todo).seen)
    ensures Reaches(cfg, d, s, x, RunAll(cfg, d.env, p, todo).store, x1)
    ensures CallsMade(x, p, RunAll(cfg, d.env, p, todo), x1)
    ensures p.errs <= RunAll(cfg, d.env, p, todo).errs
    decreases |todo|
  {
    if todo == [] {
      x1 := x;
      ReachesSelf(cfg, d, s, x);
    } else {
      StepAnyErrs(cfg, d.env, p, todo[0]);
      var (s2, x2) := Called(cfg, s, x, index, existing, todo, p.seen, d.env);
      var p2 := Step(cfg, d.env, p, todo[0]);
      x1 := CallsAll(cfg, d, s2, x2, index, existing, todo[1..], p2);
      StepThenReaches(cfg, d, s, x, s2, x2, RunAll(cfg, d.env, p, todo).store, x1);
    }
  }

  // Whole cycles.

  /** AdjustEndpoints as the cycle meets it, after Records. */
  ghost function Adjusts(cfg: Config, d: Drive, s: Store, x: Inst): Adjusted {
    AdjustLeg(cfg, d.env, x.rewrites, Retain(x.pending, x.pending.Keys - Reported(cfg, s)),
      Reported(cfg, s), true, OwnedIndex(cfg, s).Keys, d.eps)
  }

  /** Records and AdjustEndpoints, up to the planner. */
  lemma StartsCycle(cfg: Config, d: Drive, s: Store, x: Inst) returns (x1: Inst)
    requires x.phase.Idle? && ListsWork(cfg, d.env, ListRecords) && Adjusts(cfg, d, s, x).ok
    ensures Reaches(cfg, d, s, x, s, x1)
    ensures x1.phase == Planning(OwnedIndex(cfg, s), Adjust(cfg, d.eps))
    ensures x1.rewrites == Adjusts(cfg, d, s, x).rewrites && x1.pending == Adjusts(cfg, d, s, x).pending
    ensures x1.started == x.started + 1 && x1.lastGood == x.lastGood && x1.faultless
  {
    var seen := OwnedIndex(cfg, s);
    var y1 := Report(cfg, Begin(cfg, x), seen);
    var y2 := Repairing(cfg, y1, seen, d.env, d.eps);
    x1 := Pruned(cfg, y2, seen, Adjust(cfg, d.eps), d.env);
    Records(cfg, d, s, x);
    assert y1.recordsHosts == Reported(cfg, s);
    ReachesNext(cfg, d, s, y2, s, x1);
    StepThenReaches(cfg, d, s, y1, s, y2, s, x1);
    ReachesThen(cfg, d, s, x, s, y1, s, x1);
  }

  /** From the plan to the first call. */
  lemma PlansCalls(cfg: Config, d: Drive, s: Store, x: Inst)
    requires x.phase.Planning? && Fits(cfg, d, x) && !IsEmptyPlan(d.ch) && ReadsWork(cfg, d.env, d.ch)
    ensures Reaches(cfg, d, s, x, s, Write(cfg, x, d.ch, IndexFor(cfg, s, d.ch), ExistingFor(cfg, s, d.ch), d.env))
  {
    var x1 := Plan(cfg, x, d.ch);
    var x2 := x.(phase := Writing(d.ch, IndexFor(cfg, s, d.ch), ExistingFor(cfg, s, d.ch)));
    var x3 := Write(cfg, x, d.ch, IndexFor(cfg, s, d.ch), ExistingFor(cfg, s, d.ch), d.env);
    ReadsAll(cfg, d, s, x1, d.ch);
    ReachesNext(cfg, d, s, x2, s, x3);
    ReachesThen(cfg, d, s, x1, s, x2, s, x3);
    StepThenReaches(cfg, d, s, x, s, x1, s, x3);
  }

  // Listings that fail.

  /** A listing that cannot be completed ends the cycle. */
  lemma {:induction false} ListsFail(cfg: Config, d: Drive, s: Store, x: Inst, rest: seq<string>, seen: Index)
    requires x.phase == Listing(rest, seen) && exists t :: t in rest && !d.env(ListRecords, t).Works?
    ensures Reaches(cfg, d, s, x, s, Stop(x))
    decreases |rest|
  {
    var x1 := NextListing(cfg, s, x, rest, seen, d.env);
    if d.env(ListRecords, rest[0]).Works? {
      assert rest == [rest[0]] + rest[1..];
      ListsFail(cfg, d, s, x1, rest[1..], x1.phase.seen);
      StepThenReaches(cfg, d, s, x, s, x1, s, Stop(x));
    } else {
      ReachesNext(cfg, d, s, x, s, x1);
    }
  }

  lemma {:induction false} IndexesFail(cfg: Config, d: Drive, s: Store, x: Inst, ch: Changes, rest: seq<string>,
    index: Index)
    requires x.phase == Indexing(ch, rest, index) && exists t :: t in rest && !d.env(ListOwned, t).Works?
    ensures Reaches(cfg, d, s, x, s, Stop(x))
    decreases |rest|
  {
    var x1 := NextIndexing(cfg, s, x, ch, rest, index, d.env);
    if d.env(ListOwned, rest[0]).Works? {
      assert rest == [rest[0]] + rest[1..];
      IndexesFail(cfg, d, s, x1, ch, rest[1..], x1.phase.index);
      StepThenReaches(cfg, d, s, x, s, x1, s, Stop(x));
    } else {
      ReachesNext(cfg, d, s, x, s, x1);
    }
  }

  lemma {:induction false} ClaimsFail(cfg: Config, d: Drive, s: Store, x: Inst, ch: Changes, index: Index,
    rest: seq<string>, existing: Index)
    requires x.phase == Claiming(ch, index, rest, existing) && exists t :: t in rest && !d.env(ListAdoption, t).Works?
    ensures Reaches(cfg, d, s, x, s, Stop(x))
    decreases |rest|
  {
    var x1 := NextClaiming(cfg, s, x, ch, index, rest, existing, d.env);
    if d.env(ListAdoption, rest[0]).Works? {
      assert rest == [rest[0]] + rest[1..];
      ClaimsFail(cfg, d, s, x1, ch, index, rest[1..], x1.phase.existing);
      StepThenReaches(cfg, d, s, x, s, x1, s, Stop(x));
    } else {
      ReachesNext(cfg, d, s, x, s, x1);
    }
  }

  lemma OwnedUnread(cfg: Config, d: Drive, s: Store, x: Inst, ch: Changes)
    requires x.phase == Indexing(ch, if NeedsIndex(ch) then Tunnels(cfg.resolver) else [], map[])
    requires NeedsIndex(ch) && !ListsWork(cfg, d.env, ListOwned)
    ensures Reaches(cfg, d, s, x, s, Stop(x))
  {
    IndexesFail(cfg, d, s, x, ch, Tunnels(cfg.resolver), map[]);
  }

  lemma ClaimsUnread(cfg: Config, d: Drive, s: Store, x: Inst, ch: Changes)
    requires x.phase == Indexing(ch, if NeedsIndex(ch) then Tunnels(cfg.resolver) else [], map[])
    requires (NeedsIndex(ch) ==> ListsWork(cfg, d.env, ListOwned))
    requires NeedsExisting(cfg, ch) && !ListsWork(cfg, d.env, ListAdoption)
    ensures Reaches(cfg, d, s, x, s, Stop(x))
  {
    var index := IndexFor(cfg, s, ch);
    var x1 := x.(phase := Indexing(ch, [], index));
    var x2 := x.(phase := Claiming(ch, index, Tunnels(cfg.resolver), map[]));
    ReadsOwned(cfg, d, s, x, ch);
    ClaimsFail(cfg, d, s, x2, ch, index, Tunnels(cfg.resolver), map[]);
    StepThenReaches(cfg, d, s, x1, s, x2, s, Stop(x));
    ReachesThen(cfg, d, s, x, s, x1, s, Stop(x));
  }

  /** A batch whose indexes cannot be read ends before anything is written. */
  lemma ReadsFail(cfg: Config, d: Drive, s: Store, x: Inst)
    requires x.phase.Planning? && Fits(cfg, d, x) && !IsEmptyPlan(d.ch) && !ReadsWork(cfg, d.env, d.ch)
    ensures Reaches(cfg, d, s, x, s, Stop(x))
  {
    var x1 := Plan(cfg, x, d.ch);
    if NeedsIndex(d.ch) && !ListsWork(cfg, d.env, ListOwned) {
      OwnedUnread(cfg, d, s, x1, d.ch);
    } else {
      ClaimsUnread(cfg, d, s, x1, d.ch);
    }
    StepThenReaches(cfg, d, s, x, s, x1, s, Stop(x));
  }

  // The end of a cycle.

  /** What is left when the cycle is over, and whether it reported no error. */
  datatype Close = Close(store: Store, rewrites: Rewrites, pending: map<string, Reason>, good: bool)

  /** The instance is idle again, as the cycle that began from x leaves it. */
  predicate Closed(x1: Inst, c: Close, started: nat, lastGood: nat) {
    && x1.phase.Idle? && x1.started == started && x1.rewrites == c.rewrites && x1.pending == c.pending
    && x1.lastGood == if c.good then started else lastGood
  }

  ghost function Applies(cfg: Config, d: Drive, s: Store, m: Rewrites, pending: map<string, Reason>): Close {
    var b := Apply(cfg, d.env, s, m, pending, d.ch);
    Close(b.progress.store, b.rewrites, b.progress.pending, b.progress.errs == [])
  }

  lemma AppliesCalls(cfg: Config, d: Drive, s: Store, m: Rewrites, pending: map<string, Reason>)
    requires !IsEmptyPlan(d.ch) && ReadsWork(cfg, d.env, d.ch)
    ensures var leg, p := FragmentLeg(cfg, d.env, Stage.Applying, m, d.ch), Begun(cfg, s, pending, d.ch);
      var q := RunAll(cfg, d.env, p, DecisionsFor(cfg, s, d.ch));
      Applies(cfg, d, s, m, pending) ==
        if leg.ok then Close(q.store, leg.after, q.pending, q.errs == []) else Close(s, leg.after, pending, false)
  {
  }

  /** The calls, all of them, and the end. */
  lemma EndsCalling(cfg: Config, d: Drive, s: Store, y: Inst, pending: map<string, Reason>) returns (x1: Inst)
    requires y.phase == Calling(IndexFor(cfg, s, d.ch), ExistingFor(cfg, s, d.ch), DecisionsFor(cfg, s, d.ch), None)
    requires y.pending == pending && y.faultless == (SkippedFor(cfg, d.ch) == map[])
    ensures var q := RunAll(cfg, d.env, Begun(cfg, s, pending, d.ch), DecisionsFor(cfg, s, d.ch));
      && Reaches(cfg, d, s, y, q.store, x1)
      && Closed(x1, Close(q.store, y.rewrites, q.pending, q.errs == []), y.started, y.lastGood)
  {
    SkippedCount(cfg, d.ch);
    var p := Begun(cfg, s, pending, d.ch);
    var z := CallsAll(cfg, d, s, y, y.phase.index, y.phase.existing, y.phase.todo, p);
    var s1 := RunAll(cfg, d.env, p, y.phase.todo).store;
    x1 := Finish(z);
    ReachesNext(cfg, d, s1, z, s1, x1);
    ReachesThen(cfg, d, s, y, s1, z, s1, x1);
  }

  lemma EndsWriting(cfg: Config, d: Drive, s: Store, x: Inst) returns (x1: Inst)
    requires x.phase.Planning? && Fits(cfg, d, x) && x.faultless && !IsEmptyPlan(d.ch) && ReadsWork(cfg, d.env, d.ch)
    ensures var c := Applies(cfg, d, s, x.rewrites, x.pending);
      Reaches(cfg, d, s, x, c.store, x1) && Closed(x1, c, x.started, x.lastGood)
  {
    var y := Write(cfg, x, d.ch, IndexFor(cfg, s, d.ch), ExistingFor(cfg, s, d.ch), d.env);
    var c := Applies(cfg, d, s, x.rewrites, x.pending);
    PlansCalls(cfg, d, s, x);
    AppliesCalls(cfg, d, s, x.rewrites, x.pending);
    if y.phase.Idle? {
      x1 := y;
    } else {
      x1 := EndsCalling(cfg, d, s, y, x.pending);
      ReachesThen(cfg, d, s, x, s, y, c.store, x1);
    }
  }

  /** From the plan to the end of the cycle. */
  lemma EndsCycle(cfg: Config, d: Drive, s: Store, x: Inst) returns (x1: Inst)
    requires x.phase.Planning? && Fits(cfg, d, x) && x.faultless
    ensures var c := Applies(cfg, d, s, x.rewrites, x.pending);
      Reaches(cfg, d, s, x, c.store, x1) && Closed(x1, c, x.started, x.lastGood)
  {
    if IsEmptyPlan(d.ch) {
      x1 := Finish(x);
      ReachesNext(cfg, d, s, x, s, x1);
    } else if !ReadsWork(cfg, d.env, d.ch) {
      x1 := Stop(x);
      ReadsFail(cfg, d, s, x);
    } else {
      x1 := EndsWriting(cfg, d, s, x);
    }
  }

  lemma SkippedCount(cfg: Config, ch: Changes)
    ensures SkippedProblems(SkippedFor(cfg, ch)) == [] <==> SkippedFor(cfg, ch) == map[]
  {
    SortSetElements(SkippedFor(cfg, ch).Keys);
  }

  /** What a whole cycle leaves, from Records to ApplyChanges; each stops at its first failure. */
  ghost function WholeCycle(cfg: Config, d: Drive, s: Store, x: Inst): Close {
    if !ListsWork(cfg, d.env, ListRecords) then Close(s, x.rewrites, x.pending, false)
    else
      var a := Adjusts(cfg, d, s, x);
      if !a.ok then Close(s, a.rewrites, a.pending, false) else Applies(cfg, d, s, a.rewrites, a.pending)
  }

  lemma RecordsFail(cfg: Config, d: Drive, s: Store, x: Inst) returns (x1: Inst)
    requires x.phase.Idle? && !ListsWork(cfg, d.env, ListRecords)
    ensures Reaches(cfg, d, s, x, s, x1)
    ensures Closed(x1, Close(s, x.rewrites, x.pending, false), x.started + 1, x.lastGood)
  {
    var y := Begin(cfg, x);
    ListsFail(cfg, d, s, y, Tunnels(cfg.resolver), map[]);
    x1 := Stop(y);
    StepThenReaches(cfg, d, s, x, s, y, s, x1);
  }

  /** Records, all of it. */
  lemma Records(cfg: Config, d: Drive, s: Store, x: Inst)
    requires x.phase.Idle? && ListsWork(cfg, d.env, ListRecords)
    ensures Reaches(cfg, d, s, x, s, Report(cfg, Begin(cfg, x), OwnedIndex(cfg, s)))
  {
    SelectedNone(cfg, Own, s);
    assert [] + Tunnels(cfg.resolver) == Tunnels(cfg.resolver);
    ListsAll(cfg, d, s, Begin(cfg, x), [], Tunnels(cfg.resolver));
    StepThenReaches(cfg, d, s, x, s, Begin(cfg, x), s, Report(cfg, Begin(cfg, x), OwnedIndex(cfg, s)));
  }

  lemma AdjustFails(cfg: Config, d: Drive, s: Store, x: Inst) returns (x1: Inst)
    requires x.phase.Idle? && ListsWork(cfg, d.env, ListRecords) && !Adjusts(cfg, d, s, x).ok
    ensures var a := Adjusts(cfg, d, s, x);
      Reaches(cfg, d, s, x, s, x1) && Closed(x1, Close(s, a.rewrites, a.pending, false), x.started + 1, x.lastGood)
  {
    var y := Report(cfg, Begin(cfg, x), OwnedIndex(cfg, s));
    assert y.recordsHosts == Reported(cfg, s);
    x1 := Repairing(cfg, y, OwnedIndex(cfg, s), d.env, d.eps);
    Records(cfg, d, s, x);
    ReachesNext(cfg, d, s, y, s, x1);
    ReachesThen(cfg, d, s, x, s, y, s, x1);
  }

  /**
   A cycle nobody interrupts ends, whatever the network does to it, and leaves the account, the fragment and
   the pending hosts as Records, AdjustEndpoints and ApplyChanges say; it counts as good exactly when none of
   them reports an error.
   */
  lemma CycleAlone(cfg: Config, d: Drive, s: Store, x: Inst) returns (x1: Inst)
    requires x.phase.Idle? && d.view == OwnedIndex(cfg, s)
    ensures var c := WholeCycle(cfg, d, s, x);
      Reaches(cfg, d, s, x, c.store, x1) && Closed(x1, c, x.started + 1, x.lastGood)
  {
    if !ListsWork(cfg, d.env, ListRecords) {
      x1 := RecordsFail(cfg, d, s, x);
    } else if !Adjusts(cfg, d, s, x).ok {
      x1 := AdjustFails(cfg, d, s, x);
    } else {
      var y := StartsCycle(cfg, d, s, x);
      x1 := EndsCycle(cfg, d, s, y);
      ReachesThen(cfg, d, s, x, s, y, WholeCycle(cfg, d, s, x).store, x1);
    }
  }
}
