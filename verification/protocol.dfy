/**
 Instances sharing one account, one API call at a time. Between any two calls of one instance the
 others may run; any call may fail or lose its answer; an instance may crash and restart at any point.
 The listing of one tunnel is one step, as it is one request while its routes fit one page (100 of them):
 what is proved of runs is proved under that condition.
 */
module Protocol {
  import opened Wrappers
  import opened Text
  import opened FragmentCodec
  import opened Resolver
  import opened Routes
  import opened Reconcile

  /** Where an instance is in its reconciliation, with what it has read so far. */
  datatype Phase =
    | Idle
    | Listing(rest: seq<string>, seen: Index)
    | Adjusting(seen: Index)
    | Pruning(seen: Index, desired: seq<Endpoint>)
    | Planning(seen: Index, desired: seq<Endpoint>)
    | Indexing(ch: Changes, rest: seq<string>, index: Index)
    | Claiming(ch: Changes, index: Index, rest: seq<string>, existing: Index)
    | Writing(ch: Changes, index: Index, existing: Index)
    | Calling(index: Index, existing: Index, todo: seq<Decision>, known: Option<Index>)

  /**
   An instance's private state. The last five fields are history: cycles started, the last cycle
   that reported no error, whether the current one has reported none so far, the routes created or
   adopted, and the hosts whose rewrite a planned Delete took away and nothing has given back.
   */
  datatype Inst = Inst(
    phase: Phase,
    rewrites: Rewrites,
    recordsHosts: set<string>,
    ownedHosts: set<string>,
    recordsOK: bool,
    pending: map<string, Reason>,
    started: nat,
    lastGood: nat,
    faultless: bool,
    made: set<nat>,
    dropped: set<string>)

  datatype World = World(store: Store, insts: seq<Inst>)

  /** Instance i takes its next step under this network, with these desired endpoints and this plan. */
  datatype Label =
    | Act(i: nat, env: Env, eps: seq<Endpoint>, ch: Changes)
    | Crash(i: nat)

  function Stop(x: Inst): Inst {
    x.(phase := Idle, faultless := false)
  }

  function Finish(x: Inst): Inst {
    x.(phase := Idle, lastGood := if x.faultless then x.started else x.lastGood)
  }

  /** A restart keeps the fragment and loses everything held in memory. */
  function Restart(x: Inst): Inst {
    x.(phase := Idle, recordsHosts := {}, ownedHosts := {}, recordsOK := false, pending := map[], faultless := false)
  }

  function Begin(cfg: Config, x: Inst): Inst {
    x.(phase := Listing(Tunnels(cfg.resolver), map[]), recordsOK := false, started := x.started + 1, faultless := true)
  }

  function Report(cfg: Config, x: Inst, seen: Index): Inst {
    var hosts := set h | h in seen && cfg.matches(h);
    x.(phase := Adjusting(seen), recordsHosts := hosts, ownedHosts := seen.Keys, recordsOK := true,
       pending := Retain(x.pending, x.pending.Keys - hosts))
  }

  function Repairing(cfg: Config, x: Inst, seen: Index, env: Env, eps: seq<Endpoint>): Inst {
    var desired := Adjust(cfg, eps);
    var change := Repair(cfg, eps, x.recordsHosts);
    var leg := FragmentLeg(cfg, env, Stage.Reconciling, x.rewrites, change);
    var y := x.(rewrites := leg.after, pending := Retain(x.pending, Keys(desired)));
    if leg.ok && SkippedFor(cfg, change) == map[]
    then y.(phase := Phase.Pruning(seen, desired), dropped := x.dropped - Keys(desired))
    else Stop(y)
  }

  ghost function Pruned(cfg: Config, x: Inst, seen: Index, desired: seq<Endpoint>, env: Env): Inst {
    var leg := PruneLeg(cfg, env, x.rewrites, x.recordsOK, x.ownedHosts, Keys(desired));
    x.(rewrites := leg.after, phase := Planning(seen, desired))
  }

  function Plan(cfg: Config, x: Inst, ch: Changes): Inst {
    if IsEmptyPlan(ch) then Finish(x)
    else x.(phase := Indexing(ch, if NeedsIndex(ch) then Tunnels(cfg.resolver) else [], map[]))
  }

  function Write(cfg: Config, x: Inst, ch: Changes, index: Index, existing: Index, env: Env): Inst {
    var leg := FragmentLeg(cfg, env, Stage.Applying, x.rewrites, ch);
    var skipped := SkippedFor(cfg, ch);
    var y := x.(rewrites := leg.after, faultless := x.faultless && skipped == map[],
                dropped := (x.dropped + (set h | h in Removes(cfg, ch.delete))) - leg.after.Keys);
    if leg.ok then y.(phase := Calling(index, existing, Decisions(cfg, index, existing, skipped, ch), None))
    else Stop(y)
  }

  /** The route a call creates or adopts, when it takes effect. */
  function MadeBy(cfg: Config, s: Store, d: Decision, env: Env): set<nat> {
    if cfg.dryRun || !d.Go? || env(CallOp(KindOf(d.call)), d.call.host).Fails? || !Accepts(s, d.call) then {}
    else
      match d.call
      case Create(_, _, _, _) => {s.next}
      case Adopt(_, id, _) => {id}
      case _ => {}
  }

  /** One call, as Reconcile's Step makes it. */
  function Attempted(cfg: Config, s: Store, x: Inst, d: Decision, known: Option<Index>, env: Env): Progress {
    Step(cfg, env, Progress(s, [], x.pending, [], known), d)
  }

  function Called(cfg: Config, s: Store, x: Inst, index: Index, existing: Index, todo: seq<Decision>,
    known: Option<Index>, env: Env): (Store, Inst)
    requires todo != []
  {
    var q := Attempted(cfg, s, x, todo[0], known, env);
    (q.store, x.(phase := Calling(index, existing, todo[1..], q.seen), pending := q.pending,
                 faultless := x.faultless && q.errs == [], made := x.made + MadeBy(cfg, s, todo[0], env)))
  }

  /** One tunnel read for Records, or the report when all are. */
  function NextListing(cfg: Config, s: Store, x: Inst, rest: seq<string>, seen: Index, env: Env): Inst {
    if rest == [] then Report(cfg, x, seen)
    else if env(ListRecords, rest[0]).Works? then
      x.(phase := Listing(rest[1..], seen + Selected(cfg, Own, s, [rest[0]])))
    else Stop(x)
  }

  function NextIndexing(cfg: Config, s: Store, x: Inst, ch: Changes, rest: seq<string>, index: Index, env: Env): Inst {
    if rest == [] then
      x.(phase := Claiming(ch, index, if NeedsExisting(cfg, ch) then Tunnels(cfg.resolver) else [], map[]))
    else if env(ListOwned, rest[0]).Works? then
      x.(phase := Indexing(ch, rest[1..], index + Selected(cfg, Own, s, [rest[0]])))
    else Stop(x)
  }

  function NextClaiming(cfg: Config, s: Store, x: Inst, ch: Changes, index: Index, rest: seq<string>, existing: Index,
    env: Env): Inst
  {
    if rest == [] then x.(phase := Writing(ch, index, existing))
    else if env(ListAdoption, rest[0]).Works? then
      x.(phase := Claiming(ch, index, rest[1..], existing + Selected(cfg, Any, s, [rest[0]])))
    else Stop(x)
  }

  /** One step: a listing, a fragment edit, a plan or a call. */
  ghost function NextInst(cfg: Config, s: Store, x: Inst, env: Env, eps: seq<Endpoint>, ch: Changes): (Store, Inst) {
    match x.phase
    case Idle => (s, Begin(cfg, x))
    case Listing(rest, seen) => (s, NextListing(cfg, s, x, rest, seen, env))
    case Adjusting(seen) => (s, Repairing(cfg, x, seen, env, eps))
    case Pruning(seen, desired) => (s, Pruned(cfg, x, seen, desired, env))
    case Planning(_, _) => (s, Plan(cfg, x, ch))
    case Indexing(plan, rest, index) => (s, NextIndexing(cfg, s, x, plan, rest, index, env))
    case Claiming(plan, index, rest, existing) => (s, NextClaiming(cfg, s, x, plan, index, rest, existing, env))
    case Writing(plan, index, existing) => (s, Write(cfg, x, plan, index, existing, env))
    case Calling(index, existing, todo, known) =>
      if todo == [] then (s, Finish(x)) else Called(cfg, s, x, index, existing, todo, known, env)
  }

  ghost predicate WellNumbered(cfgs: seq<Config>, w: World) {
    |w.insts| == |cfgs|
  }

  /** A label for no instance changes nothing. */
  ghost function Next(cfgs: seq<Config>, w: World, l: Label): World
    requires WellNumbered(cfgs, w)
    ensures WellNumbered(cfgs, Next(cfgs, w, l))
  {
    if l.i >= |cfgs| then w
    else
      match l
      case Act(i, env, eps, ch) =>
        var (s, x) := NextInst(cfgs[i], w.store, w.insts[i], env, eps, ch);
        World(s, w.insts[i := x])
      case Crash(i) => w.(insts := w.insts[i := Restart(w.insts[i])])
  }

  ghost function Run(cfgs: seq<Config>, w: World, ls: seq<Label>): World
    requires WellNumbered(cfgs, w)
    ensures WellNumbered(cfgs, Run(cfgs, w, ls))
    decreases |ls|
  {
    if ls == [] then w else Run(cfgs, Next(cfgs, w, ls[0]), ls[1..])
  }

  /** Nothing has been read or called yet. */
  ghost predicate Fresh(w: World) {
    ValidStore(w.store) && forall i :: 0 <= i < |w.insts| ==> FreshInst(w.insts[i])
  }

  predicate FreshInst(x: Inst) {
    && x.phase.Idle? && x.started == 0 && x.lastGood == 0 && x.made == {} && x.dropped == {}
    && !x.recordsOK && x.pending == map[] && x.recordsHosts == {} && x.ownedHosts == {}
  }

  lemma {:induction false} RunConcat(cfgs: seq<Config>, w: World, a: seq<Label>, b: seq<Label>)
    requires WellNumbered(cfgs, w)
    ensures Run(cfgs, w, a + b) == Run(cfgs, Run(cfgs, w, a), b)
    decreases |a|
  {
    if a == [] {
      assert a + b == b;
    } else {
      assert (a + b)[1..] == a[1..] + b;
      RunConcat(cfgs, Next(cfgs, w, a[0]), a[1..], b);
    }
  }

  /** A call in progress leaves what was read and moves to the next decision. */
  lemma CalledParts(cfg: Config, s: Store, x: Inst, index: Index, existing: Index, todo: seq<Decision>,
    known: Option<Index>, env: Env)
    requires todo != []
    ensures var (s', x') := Called(cfg, s, x, index, existing, todo, known, env);
      && x'.phase == Calling(index, existing, todo[1..], Attempted(cfg, s, x, todo[0], known, env).seen)
      && s' == if todo[0].Go? && !cfg.dryRun
               then Perform(s, todo[0].call, env(CallOp(KindOf(todo[0].call)), todo[0].call.host)).0 else s
  {
  }

  /** The account changes only when an instance makes its next call. */
  lemma StoreChangesByCall(cfg: Config, s: Store, x: Inst, env: Env, eps: seq<Endpoint>, ch: Changes)
    ensures var s' := NextInst(cfg, s, x, env, eps, ch).0;
      if x.phase.Calling? && x.phase.todo != [] && x.phase.todo[0].Go? && !cfg.dryRun then
        var c := x.phase.todo[0].call;
        s' == Perform(s, c, env(CallOp(KindOf(c)), c.host)).0
      else s' == s
  {
  }
}
