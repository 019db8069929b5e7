/**
 What prune may trust: whenever the last Records counts as complete, what it saw is every route this
 instance may manage on every tunnel it lists, each tunnel as it stood when it was listed, in one cycle.
 */
module Snapshots {
  import opened Wrappers
  import opened Text
  import opened Resolver
  import opened Routes
  import opened Reconcile
  import opened Protocol
  import opened Safety
  import opened Solo
  import opened Converge

  // A complete view, tunnel by tunnel.

  /** The states a run goes through, the first and the last included. */
  ghost function Trace(cfgs: seq<Config>, w: World, ls: seq<Label>): (tr: seq<World>)
    requires WellNumbered(cfgs, w)
    ensures tr != [] && forall i :: 0 <= i < |tr| ==> WellNumbered(cfgs, tr[i])
    decreases |ls|
  {
    if ls == [] then [w]
    else
      var before := Trace(cfgs, w, ls[..|ls| - 1]);
      before + [Next(cfgs, before[|before| - 1], ls[|ls| - 1])]
  }

  lemma {:induction false} TraceEnds(cfgs: seq<Config>, w: World, ls: seq<Label>)
    requires WellNumbered(cfgs, w)
    ensures var tr := Trace(cfgs, w, ls); tr[|tr| - 1] == Run(cfgs, w, ls)
    decreases |ls|
  {
    if ls != [] {
      var front, last := ls[..|ls| - 1], ls[|ls| - 1];
      TraceEnds(cfgs, w, front);
      assert ls == front + [last];
      RunConcat(cfgs, w, front, [last]);
      assert [last][1..] == [];
      assert Run(cfgs, Run(cfgs, w, front), [last]) == Run(cfgs, Next(cfgs, Run(cfgs, w, front), last), []);
    }
  }

  /** A route this instance may manage is live under the host on this tunnel. */
  predicate On(cfg: Config, s: Store, t: string, h: string) {
    h in s.live && s.live[h].tunnel == t && Manageable(cfg, s.live[h].comment)
  }

  /** States of the trace, one after another, all in this cycle of the instance. */
  ghost predicate Moments(tr: seq<World>, k: nat, times: seq<nat>, cycle: nat) {
    && (forall j :: 0 <= j < |times| ==>
          times[j] < |tr| && k < |tr[times[j]].insts| && tr[times[j]].insts[k].started == cycle)
    && (forall i, j :: 0 <= i < j < |times| ==> times[i] <= times[j])
  }

  ghost predicate SawAt(cfg: Config, tr: seq<World>, times: seq<nat>, h: string, j: nat)
    requires j < |times| && times[j] < |tr| && j < |Tunnels(cfg.resolver)|
  {
    On(cfg, tr[times[j]].store, Tunnels(cfg.resolver)[j], h)
  }

  ghost predicate SawSomewhere(cfg: Config, tr: seq<World>, times: seq<nat>, h: string)
    requires (forall j :: 0 <= j < |times| ==> times[j] < |tr|) && |times| <= |Tunnels(cfg.resolver)|
  {
    exists j :: 0 <= j < |times| && SawAt(cfg, tr, times, h, j)
  }

  /** The hosts are those on each of the first tunnels at its moment. */
  ghost predicate Saw(cfg: Config, tr: seq<World>, times: seq<nat>, hosts: set<string>)
    requires (forall j :: 0 <= j < |times| ==> times[j] < |tr|) && |times| <= |Tunnels(cfg.resolver)|
  {
    forall h :: h in hosts <==> SawSomewhere(cfg, tr, times, h)
  }

  /** The hosts are those seen on the first n tunnels, listed one after another in this cycle. */
  ghost predicate SeenInCycle(cfg: Config, tr: seq<World>, k: nat, n: nat, hosts: set<string>, cycle: nat)
    requires n <= |Tunnels(cfg.resolver)|
  {
    exists times: seq<nat> :: |times| == n && Moments(tr, k, times, cycle) && Saw(cfg, tr, times, hosts)
  }

  lemma SeenBy(cfg: Config, tr: seq<World>, k: nat, times: seq<nat>, hosts: set<string>, cycle: nat)
    requires Moments(tr, k, times, cycle) && |times| <= |Tunnels(cfg.resolver)| && Saw(cfg, tr, times, hosts)
    ensures SeenInCycle(cfg, tr, k, |times|, hosts, cycle)
  {
  }

  lemma SeenLater(cfg: Config, tr: seq<World>, w: World, k: nat, n: nat, hosts: set<string>, cycle: nat)
    requires n <= |Tunnels(cfg.resolver)| && SeenInCycle(cfg, tr, k, n, hosts, cycle)
    ensures SeenInCycle(cfg, tr + [w], k, n, hosts, cycle)
  {
    var times: seq<nat> :| |times| == n && Moments(tr, k, times, cycle) && Saw(cfg, tr, times, hosts);
    assert forall j :: 0 <= j < |times| ==> (tr + [w])[times[j]] == tr[times[j]];
    assert Moments(tr + [w], k, times, cycle);
    forall h
      ensures SawSomewhere(cfg, tr + [w], times, h) <==> SawSomewhere(cfg, tr, times, h)
    {
      assert forall j :: 0 <= j < n ==> (SawAt(cfg, tr + [w], times, h, j) <==> SawAt(cfg, tr, times, h, j));
    }
    assert Saw(cfg, tr + [w], times, hosts);
  }

  lemma MomentsGrow(tr: seq<World>, k: nat, times: seq<nat>, cycle: nat)
    requires Moments(tr, k, times, cycle) && tr != []
    requires k < |tr[|tr| - 1].insts| && tr[|tr| - 1].insts[k].started == cycle
    ensures Moments(tr, k, times + [|tr| - 1], cycle)
  {
  }

  lemma SawMore(cfg: Config, tr: seq<World>, times: seq<nat>, now: nat, h: string)
    requires (forall j :: 0 <= j < |times| ==> times[j] < |tr|) && now < |tr| && |times| < |Tunnels(cfg.resolver)|
    ensures SawSomewhere(cfg, tr, times + [now], h) <==>
      SawSomewhere(cfg, tr, times, h) || On(cfg, tr[now].store, Tunnels(cfg.resolver)[|times|], h)
  {
    var later, n := times + [now], |times|;
    assert SawAt(cfg, tr, later, h, n) <==> On(cfg, tr[now].store, Tunnels(cfg.resolver)[n], h);
    forall j | 0 <= j < n
      ensures SawAt(cfg, tr, later, h, j) <==> SawAt(cfg, tr, times, h, j)
    {
      assert later[j] == times[j];
    }
  }

  lemma SawOneMore(cfg: Config, tr: seq<World>, times: seq<nat>, now: nat, hosts: set<string>, more: set<string>)
    requires (forall j :: 0 <= j < |times| ==> times[j] < |tr|) && now < |tr| && |times| < |Tunnels(cfg.resolver)|
    requires Saw(cfg, tr, times, hosts)
    requires forall h :: h in more <==> h in hosts || On(cfg, tr[now].store, Tunnels(cfg.resolver)[|times|], h)
    ensures Saw(cfg, tr, times + [now], more)
  {
    forall h
      ensures h in more <==> SawSomewhere(cfg, tr, times + [now], h)
    {
      SawMore(cfg, tr, times, now, h);
    }
  }

  /** Listing one more tunnel, now, adds what is on it now. */
  lemma SeenOneMore(cfg: Config, tr: seq<World>, k: nat, n: nat, hosts: set<string>, more: set<string>, cycle: nat)
    requires n < |Tunnels(cfg.resolver)| && SeenInCycle(cfg, tr, k, n, hosts, cycle)
    requires tr != [] && k < |tr[|tr| - 1].insts| && tr[|tr| - 1].insts[k].started == cycle
    requires forall h :: h in more <==> h in hosts || On(cfg, tr[|tr| - 1].store, Tunnels(cfg.resolver)[n], h)
    ensures SeenInCycle(cfg, tr, k, n + 1, more, cycle)
  {
    var times: seq<nat> :| |times| == n && Moments(tr, k, times, cycle) && Saw(cfg, tr, times, hosts);
    MomentsGrow(tr, k, times, cycle);
    SawOneMore(cfg, tr, times, |tr| - 1, hosts, more);
    SeenBy(cfg, tr, k, times + [|tr| - 1], more, cycle);
  }

  lemma NoneSeen(cfg: Config, tr: seq<World>, k: nat, cycle: nat)
    ensures SeenInCycle(cfg, tr, k, 0, {}, cycle)
  {
    var none: seq<nat> := [];
    assert Moments(tr, k, none, cycle) && Saw(cfg, tr, none, {});
  }

  /** What the instance has listed so far, and what it believes complete, it saw in its present cycle. */
  ghost predicate Snapped(cfg: Config, tr: seq<World>, k: nat, x: Inst) {
    Partly(cfg, tr, k, x.phase, x.started) && (x.recordsOK ==> Fully(cfg, tr, k, x.ownedHosts, x.started))
  }

  ghost predicate Partly(cfg: Config, tr: seq<World>, k: nat, p: Phase, cycle: nat) {
    match p
    case Listing(rest, seen) =>
      && Suffix(rest, Tunnels(cfg.resolver))
      && SeenInCycle(cfg, tr, k, |Tunnels(cfg.resolver)| - |rest|, seen.Keys, cycle)
    case _ => true
  }

  ghost predicate Fully(cfg: Config, tr: seq<World>, k: nat, hosts: set<string>, cycle: nat) {
    SeenInCycle(cfg, tr, k, |Tunnels(cfg.resolver)|, hosts, cycle)
  }

  lemma SnappedLater(cfg: Config, tr: seq<World>, w: World, k: nat, x: Inst)
    requires Snapped(cfg, tr, k, x)
    ensures Snapped(cfg, tr + [w], k, x)
  {
    if x.phase.Listing? {
      SeenLater(cfg, tr, w, k, |Tunnels(cfg.resolver)| - |x.phase.rest|, x.phase.seen.Keys, x.started);
    }
    if x.recordsOK {
      SeenLater(cfg, tr, w, k, |Tunnels(cfg.resolver)|, x.ownedHosts, x.started);
    }
  }

  lemma MoreSeen(cfg: Config, s: Store, seen: Index, t: string, h: string)
    ensures h in (seen + Selected(cfg, Own, s, [t])).Keys <==> h in seen.Keys || On(cfg, s, t, h)
  {
  }

  lemma SnappedOneMore(cfg: Config, tr: seq<World>, k: nat, rest: seq<string>, seen: Index, cycle: nat)
    requires tr != [] && k < |tr[|tr| - 1].insts| && tr[|tr| - 1].insts[k].started == cycle && rest != []
    requires Partly(cfg, tr, k, Listing(rest, seen), cycle)
    ensures Partly(cfg, tr, k, Listing(rest[1..], seen + Selected(cfg, Own, tr[|tr| - 1].store, [rest[0]])), cycle)
  {
    var s, all := tr[|tr| - 1].store, Tunnels(cfg.resolver);
    var n, more := |all| - |rest|, seen + Selected(cfg, Own, s, [rest[0]]);
    SuffixNext(rest, all);
    assert all[n] == rest[0];
    forall h {
      MoreSeen(cfg, s, seen, rest[0], h);
    }
    SeenOneMore(cfg, tr, k, n, seen.Keys, more.Keys, cycle);
  }

  lemma SnappedListing(cfg: Config, tr: seq<World>, k: nat, x: Inst, rest: seq<string>, seen: Index, env: Env)
    requires tr != [] && k < |tr[|tr| - 1].insts| && tr[|tr| - 1].insts[k] == x
    requires x.phase == Listing(rest, seen) && Snapped(cfg, tr, k, x)
    ensures Snapped(cfg, tr, k, NextListing(cfg, tr[|tr| - 1].store, x, rest, seen, env))
  {
    if rest != [] {
      SnappedOneMore(cfg, tr, k, rest, seen, x.started);
    }
  }

  lemma SnappedBegin(cfg: Config, tr: seq<World>, k: nat, x: Inst)
    ensures Snapped(cfg, tr, k, Begin(cfg, x))
  {
    NoneSeen(cfg, tr, k, x.started + 1);
  }

  /** Steps that leave what Records saw. */
  predicate RecordsKept(x: Inst, y: Inst) {
    y.recordsOK == x.recordsOK && y.ownedHosts == x.ownedHosts && y.started == x.started && !y.phase.Listing?
  }

  lemma EarlyKept(cfg: Config, s: Store, x: Inst, env: Env, eps: seq<Endpoint>, ch: Changes)
    requires x.phase.Adjusting? || x.phase.Pruning? || x.phase.Planning?
    ensures RecordsKept(x, NextInst(cfg, s, x, env, eps, ch).1)
  {
    match x.phase
    case Adjusting(_) =>
    case Pruning(_, _) =>
    case Planning(_, _) =>
  }

  lemma LateKept(cfg: Config, s: Store, x: Inst, env: Env, eps: seq<Endpoint>, ch: Changes)
    requires x.phase.Indexing? || x.phase.Claiming? || x.phase.Writing?
    ensures RecordsKept(x, NextInst(cfg, s, x, env, eps, ch).1)
  {
    match x.phase
    case Indexing(_, _, _) =>
    case Claiming(_, _, _, _) =>
    case Writing(_, _, _) =>
  }

  lemma CalledKept(cfg: Config, s: Store, x: Inst, env: Env, eps: seq<Endpoint>, ch: Changes)
    requires x.phase.Calling?
    ensures RecordsKept(x, NextInst(cfg, s, x, env, eps, ch).1)
  {
    if x.phase.todo != [] {
      CalledParts(cfg, s, x, x.phase.index, x.phase.existing, x.phase.todo, x.phase.known, env);
    }
  }

  lemma SnappedKept(cfg: Config, tr: seq<World>, k: nat, x: Inst, y: Inst)
    requires Snapped(cfg, tr, k, x) && RecordsKept(x, y)
    ensures Snapped(cfg, tr, k, y)
  {
  }

  lemma SnappedOwnStep(cfg: Config, tr: seq<World>, k: nat, x: Inst, env: Env, eps: seq<Endpoint>, ch: Changes)
    requires tr != [] && k < |tr[|tr| - 1].insts| && tr[|tr| - 1].insts[k] == x && Snapped(cfg, tr, k, x)
    ensures Snapped(cfg, tr, k, NextInst(cfg, tr[|tr| - 1].store, x, env, eps, ch).1)
  {
    var s := tr[|tr| - 1].store;
    match x.phase
    case Idle => SnappedBegin(cfg, tr, k, x);
    case Listing(rest, seen) => SnappedListing(cfg, tr, k, x, rest, seen, env);
    case Calling(_, _, _, _) =>
      CalledKept(cfg, s, x, env, eps, ch);
      SnappedKept(cfg, tr, k, x, NextInst(cfg, s, x, env, eps, ch).1);
    case Adjusting(_) =>
      EarlyKept(cfg, s, x, env, eps, ch);
      SnappedKept(cfg, tr, k, x, NextInst(cfg, s, x, env, eps, ch).1);
    case Pruning(_, _) =>
      EarlyKept(cfg, s, x, env, eps, ch);
      SnappedKept(cfg, tr, k, x, NextInst(cfg, s, x, env, eps, ch).1);
    case Planning(_, _) =>
      EarlyKept(cfg, s, x, env, eps, ch);
      SnappedKept(cfg, tr, k, x, NextInst(cfg, s, x, env, eps, ch).1);
    case _ =>
      LateKept(cfg, s, x, env, eps, ch);
      SnappedKept(cfg, tr, k, x, NextInst(cfg, s, x, env, eps, ch).1);
  }

  lemma SnappedStep(cfgs: seq<Config>, tr: seq<World>, l: Label, k: nat)
    requires tr != [] && WellNumbered(cfgs, tr[|tr| - 1]) && k < |cfgs|
    requires Snapped(cfgs[k], tr, k, tr[|tr| - 1].insts[k])
    ensures var w' := Next(cfgs, tr[|tr| - 1], l); Snapped(cfgs[k], tr + [w'], k, w'.insts[k])
  {
    var w, w' := tr[|tr| - 1], Next(cfgs, tr[|tr| - 1], l);
    if l.i == k && l.Act? {
      SnappedOwnStep(cfgs[k], tr, k, w.insts[k], l.env, l.eps, l.ch);
    }
    SnappedLater(cfgs[k], tr, w', k, w'.insts[k]);
  }

  lemma {:induction false} SnappedRun(cfgs: seq<Config>, w: World, ls: seq<Label>, k: nat)
    requires WellNumbered(cfgs, w) && Fresh(w) && k < |cfgs|
    ensures var tr := Trace(cfgs, w, ls); Snapped(cfgs[k], tr, k, tr[|tr| - 1].insts[k])
    decreases |ls|
  {
    if ls == [] {
      assert FreshInst(w.insts[k]);
    } else {
      SnappedRun(cfgs, w, ls[..|ls| - 1], k);
      SnappedStep(cfgs, Trace(cfgs, w, ls[..|ls| - 1]), ls[|ls| - 1], k);
    }
  }

  /**
   In every reachable state, whatever has failed, crashed or been interrupted: while the last Records counts
   as complete, the hosts prune spares are exactly those of the manageable routes on all listed tunnels,
   each tunnel as it stood when this very cycle listed it, in one page.
   */
  lemma RecordsComplete(cfgs: seq<Config>, w: World, ls: seq<Label>, k: nat)
    requires WellNumbered(cfgs, w) && Fresh(w) && k < |cfgs| && Run(cfgs, w, ls).insts[k].recordsOK
    ensures var x := Run(cfgs, w, ls).insts[k];
      SeenInCycle(cfgs[k], Trace(cfgs, w, ls), k, |Tunnels(cfgs[k].resolver)|, x.ownedHosts, x.started)
  {
    TraceEnds(cfgs, w, ls);
    SnappedRun(cfgs, w, ls, k);
  }

  // A strict instance's view is exact.

  ghost predicate Exact(cfg: Config, s: Store, x: Inst) {
    match x.phase
    case Listing(rest, seen) =>
      Suffix(rest, Tunnels(cfg.resolver)) && seen == Selected(cfg, Own, s, Converge.Done(cfg, rest))
    case Adjusting(seen) => seen == OwnedIndex(cfg, s) && x.ownedHosts == seen.Keys
    case Pruning(_, _) => x.ownedHosts == OwnedIndex(cfg, s).Keys
    case _ => true
  }

  lemma ExactUnderOthers(cfgs: seq<Config>, w: World, l: Label, k: nat)
    requires Fleet(cfgs) && NoClash(cfgs) && AllSteady(cfgs, w) && k < |cfgs| && k != l.i && cfgs[k].strict
    requires Exact(cfgs[k], w.store, w.insts[k])
    ensures Exact(cfgs[k], Next(cfgs, w, l).store, w.insts[k])
  {
    var s, s' := w.store, Next(cfgs, w, l).store;
    forall ts
      ensures Selected(cfgs[k], Own, s', ts) == Selected(cfgs[k], Own, s, ts)
    {
      StrictIndexStaysTrue(cfgs, w, l, k, ts);
    }
    assert OwnedIndex(cfgs[k], s') == OwnedIndex(cfgs[k], s);
  }

  lemma ExactListing(cfg: Config, s: Store, x: Inst, env: Env)
    requires x.phase.Listing? && Exact(cfg, s, x)
    ensures Exact(cfg, s, NextListing(cfg, s, x, x.phase.rest, x.phase.seen, env))
  {
    DoneNext(cfg, x.phase.rest);
    if x.phase.rest != [] {
      SelectedGrows(cfg, Own, s, Converge.Done(cfg, x.phase.rest), x.phase.rest[0]);
    }
  }

  lemma ExactOwnStep(cfg: Config, s: Store, x: Inst, env: Env, eps: seq<Endpoint>, ch: Changes)
    requires Exact(cfg, s, x)
    ensures var (s', y) := NextInst(cfg, s, x, env, eps, ch); Exact(cfg, s', y)
  {
    match x.phase
    case Idle =>
      SelectedNone(cfg, Own, s);
      assert Converge.Done(cfg, Tunnels(cfg.resolver)) == [];
    case Listing(_, _) => ExactListing(cfg, s, x, env);
    case Adjusting(_) =>
    case _ => LaterIsExact(cfg, s, x, env, eps, ch);
  }

  lemma LaterIsExact(cfg: Config, s: Store, x: Inst, env: Env, eps: seq<Endpoint>, ch: Changes)
    requires !x.phase.Idle? && !x.phase.Listing? && !x.phase.Adjusting?
    ensures var (s', y) := NextInst(cfg, s, x, env, eps, ch); Exact(cfg, s', y)
  {
    if x.phase.Calling? && x.phase.todo != [] {
      CalledParts(cfg, s, x, x.phase.index, x.phase.existing, x.phase.todo, x.phase.known, env);
    }
  }

  lemma {:induction false} ExactRun(cfgs: seq<Config>, w: World, ls: seq<Label>, k: nat)
    requires Fleet(cfgs) && NoClash(cfgs) && AllSteady(cfgs, w) && k < |cfgs| && cfgs[k].strict
    requires Exact(cfgs[k], w.store, w.insts[k])
    ensures Exact(cfgs[k], Run(cfgs, w, ls).store, Run(cfgs, w, ls).insts[k])
    decreases |ls|
  {
    if ls != [] {
      var l := ls[0];
      if l.i != k {
        ExactUnderOthers(cfgs, w, l, k);
      } else if l.Act? {
        ExactOwnStep(cfgs[k], w.store, w.insts[k], l.env, l.eps, l.ch);
      }
      SteadyStep(cfgs, w, l);
      ExactRun(cfgs, Next(cfgs, w, l), ls[1..], k);
    }
  }

  /**
   Among instances that do not clash, a strict one about to prune knows exactly the routes it owns on the
   tunnels it lists, as they are at that moment.
   */
  lemma StrictPruneExact(cfgs: seq<Config>, w: World, ls: seq<Label>, k: nat)
    requires Fleet(cfgs) && NoClash(cfgs) && WellNumbered(cfgs, w) && Fresh(w) && k < |cfgs| && cfgs[k].strict
    requires Run(cfgs, w, ls).insts[k].phase.Pruning?
    ensures var w' := Run(cfgs, w, ls);
      forall h :: h in w'.insts[k].ownedHosts <==>
        OwnedAt(cfgs[k], w'.store, h) && Lists(cfgs[k], w'.store.live[h].tunnel)
  {
    FreshIsSteady(cfgs, w);
    assert FreshInst(w.insts[k]);
    ExactRun(cfgs, w, ls, k);
  }
}
