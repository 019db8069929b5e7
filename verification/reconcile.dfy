/**
 The decisions of one reconciliation, as functions of what was read: which routes an instance may
 manage, what each planned change asks of the account, and what each answer means.
 */
module Reconcile {
  import opened Wrappers
  import opened Text
  import opened Sorting
  import opened FragmentCodec
  import opened FragmentStore
  import opened Resolver
  import opened Routes

  datatype Config = Config(
    owner: string,
    strict: bool,
    adopt: bool,
    dryRun: bool,
    coredns: bool,
    prune: bool,
    resolver: Resolver,
    matches: string -> bool,
    clusterDomain: string)

  /** What New and the operator guarantee; the domain filter ignores letter case. */
  ghost predicate ValidConfig(cfg: Config) {
    && ValidResolver(cfg.resolver) && "" !in Configured(cfg.resolver)
    && RouteOwner(Tag(cfg.owner)) == Some(cfg.owner)
    && forall h {:trigger Lower(h)} :: cfg.matches(Lower(h)) == cfg.matches(h)
  }

  datatype Endpoint = Endpoint(dns: string, target: string, labels: map<string, string>)

  datatype Changes = Changes(create: seq<Endpoint>, delete: seq<Endpoint>, update: seq<Endpoint>)

  const RESOURCE_LABEL := "resource"

  function Key(ep: Endpoint): string {
    Lower(ep.dns)
  }

  ghost predicate DistinctKeys(eps: seq<Endpoint>) {
    forall i, j :: 0 <= i < j < |eps| ==> Key(eps[i]) != Key(eps[j])
  }

  predicate IsTagged(comment: string) {
    RouteOwner(comment).Some?
  }

  predicate Owns(cfg: Config, comment: string) {
    RouteOwner(comment) == Some(cfg.owner)
  }

  predicate Manageable(cfg: Config, comment: string) {
    match RouteOwner(comment)
    case Some(owner) => owner == cfg.owner
    case None => !cfg.strict
  }

  predicate Lists(cfg: Config, tunnel: string) {
    tunnel in Tunnels(cfg.resolver)
  }

  type Index = map<string, Route>

  /** Which routes an index is built from: those this instance may manage, or all. */
  datatype Which = Own | Any

  predicate Eligible(cfg: Config, which: Which, r: Route) {
    which.Any? || Manageable(cfg, r.comment)
  }

  function Selected(cfg: Config, which: Which, s: Store, ts: seq<string>): Index {
    map h | h in s.live && s.live[h].tunnel in ts && Eligible(cfg, which, s.live[h]) :: s.live[h]
  }

  /** The live routes this instance may manage, on the tunnels it lists. */
  function OwnedIndex(cfg: Config, s: Store): Index {
    Selected(cfg, Own, s, Tunnels(cfg.resolver))
  }

  /** Every live route on the tunnels it lists, whoever owns it. */
  function ListedIndex(cfg: Config, s: Store): Index {
    Selected(cfg, Any, s, Tunnels(cfg.resolver))
  }

  /** The hostnames Records exposes. */
  function Reported(cfg: Config, s: Store): set<string> {
    set h | h in OwnedIndex(cfg, s) && cfg.matches(h)
  }

  // The network, as this instance meets it during one reconciliation.

  datatype Stage = Reconciling | Pruning | Applying

  datatype Op =
    | ListRecords | ListOwned | ListAdoption | ListAccount
    | ReadFragment(stage: Stage) | WriteFragment(stage: Stage) | LookFragment
    | CallOp(call: CallKind)

  datatype CallKind = DeleteRoute | RetargetRoute | CreateRoute | AdoptRoute

  type Env = (Op, string) -> Reply

  function KindOf(c: Call): CallKind {
    match c
    case Delete(_, _) => DeleteRoute
    case Retarget(_, _, _, _) => RetargetRoute
    case Create(_, _, _, _) => CreateRoute
    case Adopt(_, _, _) => AdoptRoute
  }

  predicate ListsWork(cfg: Config, env: Env, op: Op) {
    forall t :: t in Tunnels(cfg.resolver) ==> env(op, t).Works?
  }

  ghost predicate AllWorks(env: Env) {
    forall op, key :: env(op, key).Works?
  }

  // The in-cluster answer a hostname needs.

  datatype Why = Wildcard | NoResourceLabel | UnsupportedResource | MalformedResource

  /** service/<namespace>/<name> becomes <name>.<namespace>.svc.<cluster domain>. */
  function ServiceTarget(resource: string, clusterDomain: string): Result<string, Why> {
    match Cut(resource, '/')
    case None => Failure(UnsupportedResource)
    case Some((kind, rest)) =>
      if kind != "service" then Failure(UnsupportedResource)
      else
        match Cut(rest, '/')
        case None => Failure(MalformedResource)
        case Some((namespace, name)) =>
          if namespace == "" || name == "" then Failure(MalformedResource)
          else Success(name + "." + namespace + ".svc." + clusterDomain)
  }

  /** Exactly the well-formed Service labels are answered, each with its own cluster-local name. */
  lemma ServiceTargetExact(resource: string, clusterDomain: string, target: string)
    ensures ServiceTarget(resource, clusterDomain) == Success(target) <==>
      exists ns, name :: resource == "service" + "/" + ns + "/" + name && '/' !in ns && ns != "" && name != ""
        && target == name + "." + ns + ".svc." + clusterDomain
  {
    assert '/' !in "service";
    if ServiceTarget(resource, clusterDomain) == Success(target) {
      var (kind, rest) := Cut(resource, '/').value;
      var (ns, name) := Cut(rest, '/').value;
      assert resource == "service" + "/" + ns + "/" + name;
    }
    forall ns, name | resource == "service" + "/" + ns + "/" + name && '/' !in ns && ns != "" && name != ""
      ensures ServiceTarget(resource, clusterDomain) == Success(name + "." + ns + ".svc." + clusterDomain)
    {
      var rest := ns + "/" + name;
      assert resource == "service" + ['/'] + rest;
      CutUnique(resource, '/', "service", rest);
      CutUnique(rest, '/', ns, name);
    }
  }

  function Answer(cfg: Config, ep: Endpoint): Result<string, Why> {
    if '*' in Key(ep) then Failure(Wildcard)
    else if RESOURCE_LABEL !in ep.labels || ep.labels[RESOURCE_LABEL] == "" then Failure(NoResourceLabel)
    else ServiceTarget(ep.labels[RESOURCE_LABEL], cfg.clusterDomain)
  }

  /** Hosts of planned creates that cannot be answered in-cluster. */
  function Skips(cfg: Config, eps: seq<Endpoint>): map<string, Why> {
    if eps == [] then map[]
    else
      var prev, ep := Skips(cfg, eps[..|eps| - 1]), eps[|eps| - 1];
      if cfg.matches(ep.dns) && Answer(cfg, ep).Failure? then prev[Key(ep) := Answer(cfg, ep).error] else prev
  }

  /** The rewrites planned creates need. */
  function Adds(cfg: Config, eps: seq<Endpoint>): Rewrites {
    if eps == [] then map[]
    else
      var prev, ep := Adds(cfg, eps[..|eps| - 1]), eps[|eps| - 1];
      if cfg.matches(ep.dns) && Answer(cfg, ep).Success? then prev[Key(ep) := Answer(cfg, ep).value] else prev
  }

  /** The rewrites planned deletes give up. */
  function Removes(cfg: Config, eps: seq<Endpoint>): seq<string> {
    if eps == [] then []
    else
      var prev, ep := Removes(cfg, eps[..|eps| - 1]), eps[|eps| - 1];
      if cfg.matches(ep.dns) then prev + [Key(ep)] else prev
  }

  /** Removals first, then additions. */
  function Edited(m: Rewrites, add: Rewrites, remove: seq<string>): Rewrites {
    (map h | h in m && h !in remove :: m[h]) + add
  }

  ghost predicate LowerEdit(add: Rewrites, remove: seq<string>) {
    && (forall h :: h in add ==> IsLower(h))
    && (forall h :: h in remove ==> IsLower(h))
  }

  /** A lower-case name is found under its own spelling only. */
  lemma LowerFinds(add: Rewrites, remove: seq<string>, h: string)
    requires LowerEdit(add, remove)
    ensures (exists k :: k in add && Lower(k) == h) <==> h in add
    ensures (exists k :: k in remove && Lower(k) == h) <==> h in remove
  {
    if h in add {
      assert Lower(h) == h;
    }
    if h in remove {
      assert Lower(h) == h;
    }
  }

  /** An edit under lower-case names has one result. */
  lemma EditIsEdited(m: Rewrites, add: Rewrites, remove: seq<string>, after: Rewrites)
    requires LowerEdit(add, remove) && IsEdit(m, add, remove, after)
    ensures after == Edited(m, add, remove)
  {
    forall h {
      EditIsEditedAt(m, add, remove, after, h);
    }
  }

  lemma EditIsEditedAt(m: Rewrites, add: Rewrites, remove: seq<string>, after: Rewrites, h: string)
    requires LowerEdit(add, remove) && IsEdit(m, add, remove, after)
    ensures h in after <==> h in Edited(m, add, remove)
    ensures h in after ==> after[h] == Edited(m, add, remove)[h]
  {
    LowerFinds(add, remove, h);
    if h in add {
      assert forall k :: k in add && Lower(k) == h ==> k == h;
    }
  }

  /** The endpoints' hosts and targets fit the fragment's text. */
  ghost predicate Writable(cfg: Config, eps: seq<Endpoint>) {
    forall i :: 0 <= i < |eps| && Answer(cfg, eps[i]).Success? ==>
      IsToken(Key(eps[i])) && IsToken(Answer(cfg, eps[i]).value)
  }

  lemma {:induction false} AddsCarriable(cfg: Config, eps: seq<Endpoint>)
    requires Writable(cfg, eps)
    ensures Carriable(Adds(cfg, eps))
  {
    if eps != [] {
      AddsCarriable(cfg, eps[..|eps| - 1]);
      LowerIdempotent(eps[|eps| - 1].dns);
    }
  }

  lemma {:induction false} RemovesLower(cfg: Config, eps: seq<Endpoint>)
    ensures forall h :: h in Removes(cfg, eps) ==> IsLower(h)
  {
    if eps != [] {
      RemovesLower(cfg, eps[..|eps| - 1]);
      LowerIdempotent(eps[|eps| - 1].dns);
    }
  }

  datatype Edit = Edit(after: Rewrites, ok: bool, wrote: bool)

  /** One Apply of the fragment: read, edit, and write only a change. */
  function EditFragment(env: Env, stage: Stage, m: Rewrites, add: Rewrites, remove: seq<string>): Edit {
    if !env(ReadFragment(stage), "").Works? then Edit(m, false, false)
    else if Edited(m, add, remove) == m then Edit(m, true, false)
    else
      match env(WriteFragment(stage), "")
      case Works => Edit(Edited(m, add, remove), true, true)
      case Fails => Edit(m, false, false)
      case Lost => Edit(Edited(m, add, remove), false, true)
  }

  // What each planned change asks for.

  datatype Problem =
    | Unanswerable(host: string, why: Why)
    | NoTunnel(host: string)
    | AdoptRefused(host: string)
    | CallFailed(call: Call)
    | ListFailed
    | FragmentFailed

  datatype Decision = Skip | Bad(problem: Problem) | Go(call: Call)

  function DecideDelete(cfg: Config, index: Index, ep: Endpoint): Decision {
    if !cfg.matches(ep.dns) || Key(ep) !in index then Skip
    else Go(Delete(Key(ep), index[Key(ep)].id))
  }

  function DecideUpdate(cfg: Config, index: Index, ep: Endpoint): Decision {
    if !cfg.matches(ep.dns) then Skip
    else
      match Resolve(cfg.resolver, ep.dns)
      case None => Bad(NoTunnel(Key(ep)))
      case Some(want) =>
        if Key(ep) !in index || index[Key(ep)].tunnel == want then Skip
        else Go(Retarget(Key(ep), index[Key(ep)].id, want, index[Key(ep)].comment))
  }

  function DecideAdopt(cfg: Config, r: Route, host: string, want: string): Decision {
    if r.tunnel != want then Bad(AdoptRefused(host))
    else
      match RouteOwner(r.comment)
      case Some(owner) => if owner == cfg.owner then Skip else Bad(AdoptRefused(host))
      case None => Go(Adopt(host, r.id, Tag(cfg.owner)))
  }

  function DecideCreate(cfg: Config, existing: Index, skipped: map<string, Why>, ep: Endpoint): Decision {
    if !cfg.matches(ep.dns) || Key(ep) in skipped then Skip
    else
      match Resolve(cfg.resolver, ep.dns)
      case None => Bad(NoTunnel(Key(ep)))
      case Some(want) =>
        if Key(ep) in existing then DecideAdopt(cfg, existing[Key(ep)], Key(ep), want)
        else Go(Create(Key(ep), ep.dns, want, Tag(cfg.owner)))
  }

  function DecideDeletes(cfg: Config, index: Index, eps: seq<Endpoint>): (ds: seq<Decision>)
    ensures |ds| == |eps| && forall i :: 0 <= i < |eps| ==> ds[i] == DecideDelete(cfg, index, eps[i])
  {
    seq(|eps|, i requires 0 <= i < |eps| => DecideDelete(cfg, index, eps[i]))
  }

  function DecideUpdates(cfg: Config, index: Index, eps: seq<Endpoint>): (ds: seq<Decision>)
    ensures |ds| == |eps| && forall i :: 0 <= i < |eps| ==> ds[i] == DecideUpdate(cfg, index, eps[i])
  {
    seq(|eps|, i requires 0 <= i < |eps| => DecideUpdate(cfg, index, eps[i]))
  }

  function DecideCreates(cfg: Config, existing: Index, skipped: map<string, Why>,
    eps: seq<Endpoint>): (ds: seq<Decision>)
    ensures |ds| == |eps| && forall i :: 0 <= i < |eps| ==> ds[i] == DecideCreate(cfg, existing, skipped, eps[i])
  {
    seq(|eps|, i requires 0 <= i < |eps| => DecideCreate(cfg, existing, skipped, eps[i]))
  }

  /** Deletes, then updates, then creates. */
  function Decisions(cfg: Config, index: Index, existing: Index, skipped: map<string, Why>,
    ch: Changes): seq<Decision>
  {
    DecideDeletes(cfg, index, ch.delete) + DecideUpdates(cfg, index, ch.update)
      + DecideCreates(cfg, existing, skipped, ch.create)
  }

  // Carrying the decisions out.

  datatype Reason = PendingSelf | PendingOther | PendingUntagged | PendingUnknown

  /** Who holds the hostname a create was refused for. */
  function Classify(cfg: Config, seen: Index, host: string): Reason {
    if host !in seen then PendingUnknown
    else
      match RouteOwner(seen[host].comment)
      case Some(owner) => if owner == cfg.owner then PendingSelf else PendingOther
      case None => PendingUntagged
  }

  /**
   The account, the problems so far, the pending hosts, the calls attempted (in dry run: reported),
   and the account-wide listing once a conflict has needed it.
   */
  datatype Progress = Progress(
    store: Store,
    errs: seq<Problem>,
    pending: map<string, Reason>,
    log: seq<Call>,
    seen: Option<Index>)

  function AccountIndex(s: Store, env: Env): Index {
    if env(ListAccount, "").Works? then s.live else map[]
  }

  function Step(cfg: Config, env: Env, p: Progress, d: Decision): Progress {
    match d
    case Skip => p
    case Bad(problem) => p.(errs := p.errs + [problem])
    case Go(c) =>
      if cfg.dryRun then p.(log := p.log + [c])
      else
        var (s', out) := Perform(p.store, c, env(CallOp(KindOf(c)), c.host));
        var q := p.(store := s', log := p.log + [c]);
        match out
        case Done => if c.Create? then q.(pending := q.pending - {c.host}) else q
        case Failed => q.(errs := q.errs + [CallFailed(c)])
        case Conflict =>
          var seen := if p.seen.Some? then p.seen.value else AccountIndex(s', env);
          q.(seen := Some(seen), pending := q.pending[c.host := Classify(cfg, seen, c.host)])
  }

  /** Only a create can be refused as already routed. */
  lemma StepOther(cfg: Config, env: Env, p: Progress, c: Call)
    requires !c.Create?
    ensures var (s', out) := Perform(p.store, c, env(CallOp(KindOf(c)), c.host));
      Step(cfg, env, p, Go(c)) ==
        if cfg.dryRun then p.(log := p.log + [c])
        else p.(store := s', log := p.log + [c], errs := if out.Done? then p.errs else p.errs + [CallFailed(c)])
  {
  }

  function RunAll(cfg: Config, env: Env, p: Progress, ds: seq<Decision>): Progress
    decreases |ds|
  {
    if ds == [] then p else RunAll(cfg, env, Step(cfg, env, p, ds[0]), ds[1..])
  }

  lemma {:induction false} RunAllConcat(cfg: Config, env: Env, p: Progress, a: seq<Decision>, b: seq<Decision>)
    ensures RunAll(cfg, env, p, a + b) == RunAll(cfg, env, RunAll(cfg, env, p, a), b)
    decreases |a|
  {
    if a == [] {
      assert a + b == b;
    } else {
      assert (a + b)[1..] == a[1..] + b;
      RunAllConcat(cfg, env, Step(cfg, env, p, a[0]), a[1..], b);
    }
  }

  ghost predicate PinnedDecision(s: Store, d: Decision) {
    d.Go? ==> PinnedCall(s, d.call)
  }

  ghost predicate AllPinned(s: Store, ds: seq<Decision>) {
    forall d :: d in ds ==> PinnedDecision(s, d)
  }

  lemma StepKeeps(cfg: Config, env: Env, p: Progress, d: Decision)
    requires ValidStore(p.store) && PinnedDecision(p.store, d)
    ensures ValidStore(Step(cfg, env, p, d).store)
    ensures forall e :: PinnedDecision(p.store, e) ==> PinnedDecision(Step(cfg, env, p, d).store, e)
  {
    if d.Go? && !cfg.dryRun {
      var reply := env(CallOp(KindOf(d.call)), d.call.host);
      PerformLocal(p.store, d.call, reply);
      forall e | PinnedDecision(p.store, e)
        ensures PinnedDecision(Step(cfg, env, p, d).store, e)
      {
        if e.Go? && !e.call.Create? {
          PinnedStable(p.store, d.call, reply, e.call.host, e.call.id);
        }
      }
    }
  }

  lemma {:induction false} RunAllKeeps(cfg: Config, env: Env, p: Progress, ds: seq<Decision>, rest: seq<Decision>)
    requires ValidStore(p.store) && AllPinned(p.store, ds) && AllPinned(p.store, rest)
    ensures ValidStore(RunAll(cfg, env, p, ds).store)
    ensures AllPinned(RunAll(cfg, env, p, ds).store, rest)
    decreases |ds|
  {
    if ds != [] {
      StepKeeps(cfg, env, p, ds[0]);
      RunAllKeeps(cfg, env, Step(cfg, env, p, ds[0]), ds[1..], rest);
    }
  }

  lemma RunAllNext(cfg: Config, env: Env, p: Progress, ds: seq<Decision>, i: nat)
    requires i < |ds|
    ensures RunAll(cfg, env, p, ds[..i + 1]) == Step(cfg, env, RunAll(cfg, env, p, ds[..i]), ds[i])
  {
    assert ds[..i + 1] == ds[..i] + [ds[i]];
    RunAllConcat(cfg, env, p, ds[..i], [ds[i]]);
    var q := RunAll(cfg, env, p, ds[..i]);
    assert [ds[i]][1..] == [];
    assert RunAll(cfg, env, q, [ds[i]]) == RunAll(cfg, env, Step(cfg, env, q, ds[i]), []);
  }

  lemma RunAllNextValid(cfg: Config, env: Env, p: Progress, ds: seq<Decision>, i: nat)
    requires i < |ds| && ValidStore(p.store) && AllPinned(p.store, ds)
    ensures RunAll(cfg, env, p, ds[..i + 1]) == Step(cfg, env, RunAll(cfg, env, p, ds[..i]), ds[i])
    ensures ValidStore(RunAll(cfg, env, p, ds[..i + 1]).store)
  {
    RunAllNext(cfg, env, p, ds, i);
    RunAllKeeps(cfg, env, p, ds[..i + 1], []);
  }

  /** An index read from the account names each route by its own hostname and id. */
  ghost predicate PinnedIndex(s: Store, index: Index) {
    forall h :: h in index ==> Pinned(s, h, index[h].id)
  }

  lemma SelectedPinned(cfg: Config, which: Which, s: Store, ts: seq<string>)
    requires ValidStore(s)
    ensures PinnedIndex(s, Selected(cfg, which, s, ts))
  {
  }

  lemma DecisionsPinned(cfg: Config, s: Store, index: Index, existing: Index, skipped: map<string, Why>, ch: Changes)
    requires PinnedIndex(s, index) && PinnedIndex(s, existing)
    ensures AllPinned(s, DecideDeletes(cfg, index, ch.delete))
    ensures AllPinned(s, DecideUpdates(cfg, index, ch.update))
    ensures AllPinned(s, DecideCreates(cfg, existing, skipped, ch.create))
    ensures AllPinned(s, Decisions(cfg, index, existing, skipped, ch))
  {
  }

  /** Problems of unanswerable hosts, in hostname order. */
  ghost function SkippedProblems(skipped: map<string, Why>): (ps: seq<Problem>)
    ensures |ps| == |SortSet(skipped.Keys)|
  {
    var hosts := SortSet(skipped.Keys);
    assert forall i :: 0 <= i < |hosts| ==> hosts[i] in multiset(hosts);
    seq(|hosts|, i requires 0 <= i < |hosts| => Unanswerable(hosts[i], skipped[hosts[i]]))
  }

  // ApplyChanges as a whole.

  predicate IsEmptyPlan(ch: Changes) {
    ch.create == [] && ch.delete == [] && ch.update == []
  }

  predicate NeedsIndex(ch: Changes) {
    ch.delete != [] || ch.update != []
  }

  predicate NeedsExisting(cfg: Config, ch: Changes) {
    cfg.adopt && ch.create != []
  }

  function IndexFor(cfg: Config, s: Store, ch: Changes): Index {
    if NeedsIndex(ch) then OwnedIndex(cfg, s) else map[]
  }

  function ExistingFor(cfg: Config, s: Store, ch: Changes): Index {
    if NeedsExisting(cfg, ch) then ListedIndex(cfg, s) else map[]
  }

  function SkippedFor(cfg: Config, ch: Changes): map<string, Why> {
    if cfg.coredns then Skips(cfg, ch.create) else map[]
  }

  predicate ReadsWork(cfg: Config, env: Env, ch: Changes) {
    && (NeedsIndex(ch) ==> ListsWork(cfg, env, ListOwned))
    && (NeedsExisting(cfg, ch) ==> ListsWork(cfg, env, ListAdoption))
  }

  /** The in-cluster leg, written in one edit before any route is touched. */
  function FragmentLeg(cfg: Config, env: Env, stage: Stage, m: Rewrites, ch: Changes): Edit {
    var add, remove := Adds(cfg, ch.create), Removes(cfg, ch.delete);
    if !cfg.coredns || (add == map[] && remove == []) || cfg.dryRun then Edit(m, true, false)
    else EditFragment(env, stage, m, add, remove)
  }

  /** The fragment edit a batch asks for, if any. */
  function FragmentIntent(cfg: Config, ch: Changes): seq<(Rewrites, seq<string>)> {
    var add, remove := Adds(cfg, ch.create), Removes(cfg, ch.delete);
    if !cfg.coredns || (add == map[] && remove == []) then [] else [(add, remove)]
  }

  ghost function Begun(cfg: Config, s: Store, pending: map<string, Reason>, ch: Changes): Progress {
    Progress(s, SkippedProblems(SkippedFor(cfg, ch)), pending, [], None)
  }

  function DecisionsFor(cfg: Config, s: Store, ch: Changes): seq<Decision> {
    Decisions(cfg, IndexFor(cfg, s, ch), ExistingFor(cfg, s, ch), SkippedFor(cfg, ch), ch)
  }

  lemma BatchPinned(cfg: Config, s: Store, ch: Changes)
    requires ValidStore(s)
    ensures AllPinned(s, DecisionsFor(cfg, s, ch))
  {
    SelectedPinned(cfg, Own, s, Tunnels(cfg.resolver));
    SelectedPinned(cfg, Any, s, Tunnels(cfg.resolver));
    DecisionsPinned(cfg, s, IndexFor(cfg, s, ch), ExistingFor(cfg, s, ch), SkippedFor(cfg, ch), ch);
  }

  lemma BatchKeeps(cfg: Config, env: Env, s: Store, pending: map<string, Reason>, ch: Changes)
    requires ValidStore(s)
    ensures AllPinned(s, DecisionsFor(cfg, s, ch))
    ensures ValidStore(RunAll(cfg, env, Begun(cfg, s, pending, ch), DecisionsFor(cfg, s, ch)).store)
  {
    BatchPinned(cfg, s, ch);
    RunAllKeeps(cfg, env, Begun(cfg, s, pending, ch), DecisionsFor(cfg, s, ch), []);
  }

  lemma {:induction false} DryRunKeepsStore(cfg: Config, env: Env, p: Progress, ds: seq<Decision>)
    requires cfg.dryRun
    ensures RunAll(cfg, env, p, ds).store == p.store
    ensures RunAll(cfg, env, p, ds).pending == p.pending
    decreases |ds|
  {
    if ds != [] {
      DryRunKeepsStore(cfg, env, Step(cfg, env, p, ds[0]), ds[1..]);
    }
  }

  datatype Applied = Applied(progress: Progress, rewrites: Rewrites, wrote: bool)

  /** Reads, then the fragment, then the calls; a failed read or fragment write aborts the batch. */
  ghost function Apply(cfg: Config, env: Env, s: Store, m: Rewrites, pending: map<string, Reason>,
    ch: Changes): Applied
  {
    var none := Progress(s, [], pending, [], None);
    if IsEmptyPlan(ch) then Applied(none, m, false)
    else if !ReadsWork(cfg, env, ch) then Applied(none.(errs := [ListFailed]), m, false)
    else
      var edit := FragmentLeg(cfg, env, Applying, m, ch);
      if !edit.ok then Applied(none.(errs := [FragmentFailed]), edit.after, edit.wrote)
      else Applied(RunAll(cfg, env, Begun(cfg, s, pending, ch), DecisionsFor(cfg, s, ch)), edit.after, edit.wrote)
  }

  // AdjustEndpoints.

  /** Canonical endpoints: in the filter, with a tunnel, labels carried across. */
  function Adjust(cfg: Config, eps: seq<Endpoint>): seq<Endpoint> {
    if eps == [] then []
    else
      var prev, ep := Adjust(cfg, eps[..|eps| - 1]), eps[|eps| - 1];
      match Resolve(cfg.resolver, ep.dns)
      case None => prev
      case Some(t) =>
        if cfg.matches(ep.dns) then prev + [Endpoint(ep.dns, Target(t), ep.labels)] else prev
  }

  function Keys(eps: seq<Endpoint>): set<string> {
    set i | 0 <= i < |eps| :: Key(eps[i])
  }

  function Retain(pending: map<string, Reason>, keep: set<string>): map<string, Reason> {
    map h | h in pending && h in keep :: pending[h]
  }

  /** Of the desired endpoints, those Records already exposed: what the repair reconciles. */
  function Existing(eps: seq<Endpoint>, recordsHosts: set<string>): seq<Endpoint> {
    if eps == [] then []
    else
      var prev, ep := Existing(eps[..|eps| - 1], recordsHosts), eps[|eps| - 1];
      if Key(ep) in recordsHosts && '*' !in Key(ep) then prev + [ep] else prev
  }

  lemma {:induction false} ExistingAt(eps: seq<Endpoint>, hosts: set<string>)
    ensures forall ep :: ep in Existing(eps, hosts) <==> ep in eps && Key(ep) in hosts && '*' !in Key(ep)
    ensures DistinctKeys(eps) ==> DistinctKeys(Existing(eps, hosts))
  {
    if eps != [] {
      var front, last := eps[..|eps| - 1], eps[|eps| - 1];
      assert eps == front + [last];
      ExistingAt(front, hosts);
      if DistinctKeys(eps) && Key(last) in hosts && '*' !in Key(last) {
        forall i | 0 <= i < |Existing(front, hosts)|
          ensures Key(Existing(front, hosts)[i]) != Key(last)
        {
          assert Existing(front, hosts)[i] in Existing(front, hosts);
        }
      }
    }
  }

  lemma EditedRemoval(m: Rewrites, gone: set<string>)
    ensures Edited(m, map[], SortSet(gone)) == m - gone
  {
    SortSetElements(gone);
  }

  /** Fragment entries nothing owns or wants, among those this instance was configured to manage. */
  function Stale(cfg: Config, m: Rewrites, owned: set<string>, desired: set<string>): set<string> {
    set h | h in m && h !in owned && h !in desired && cfg.matches(h) && Resolve(cfg.resolver, h).Some?
  }

  lemma StaleLower(cfg: Config, m: Rewrites, owned: set<string>, desired: set<string>)
    requires Carriable(m)
    ensures LowerEdit(map[], SortSet(Stale(cfg, m, owned, desired)))
  {
    SortSetElements(Stale(cfg, m, owned, desired));
  }

  predicate MayPrune(cfg: Config, env: Env, recordsOK: bool) {
    cfg.coredns && cfg.prune && recordsOK && env(LookFragment, "").Works?
  }

  ghost function PruneIntent(cfg: Config, env: Env, m: Rewrites, recordsOK: bool, owned: set<string>,
    desired: set<string>)
    : seq<(Rewrites, seq<string>)>
  {
    if MayPrune(cfg, env, recordsOK) && Stale(cfg, m, owned, desired) != {}
    then [(map[], SortSet(Stale(cfg, m, owned, desired)))] else []
  }

  lemma StaleSortedEmpty(cfg: Config, m: Rewrites, owned: set<string>, desired: set<string>)
    ensures SortSet(Stale(cfg, m, owned, desired)) == [] <==> Stale(cfg, m, owned, desired) == {}
  {
    SortSetElements(Stale(cfg, m, owned, desired));
  }

  ghost function PruneLeg(cfg: Config, env: Env, m: Rewrites, recordsOK: bool, owned: set<string>,
    desired: set<string>): Edit
  {
    if PruneIntent(cfg, env, m, recordsOK, owned, desired) == [] || cfg.dryRun then Edit(m, true, false)
    else EditFragment(env, Pruning, m, map[], SortSet(Stale(cfg, m, owned, desired)))
  }

  datatype Adjusted = Adjusted(
    ok: bool,
    rewrites: Rewrites,
    pending: map<string, Reason>,
    edits: seq<(Rewrites, seq<string>)>,
    writes: nat)

  /** The repair's share of a batch: desired endpoints Records already exposed. */
  function Repair(cfg: Config, eps: seq<Endpoint>, recordsHosts: set<string>): Changes {
    Changes(Existing(Adjust(cfg, eps), recordsHosts), [], [])
  }

  /** What the fragment's two edits come to. */
  datatype Repaired = Repaired(ok: bool, rewrites: Rewrites, edits: seq<(Rewrites, seq<string>)>, writes: nat)

  /** Repair what exists, then prune what nothing owns or wants; a failed repair stops before pruning. */
  ghost function RepairPrune(cfg: Config, env: Env, m: Rewrites, change: Changes, recordsOK: bool, owned: set<string>,
    desired: set<string>): Repaired
  {
    var repair := FragmentLeg(cfg, env, Reconciling, m, change);
    var asked := FragmentIntent(cfg, change);
    if !repair.ok || SkippedFor(cfg, change) != map[] then
      Repaired(false, repair.after, asked, if repair.wrote then 1 else 0)
    else
      var prune := PruneLeg(cfg, env, repair.after, recordsOK, owned, desired);
      Repaired(true, prune.after, asked + PruneIntent(cfg, env, repair.after, recordsOK, owned, desired),
        (if repair.wrote then 1 else 0) + if prune.wrote then 1 else 0)
  }

  /** All of AdjustEndpoints: pending hosts no longer desired are dropped, the fragment is repaired, then pruned. */
  ghost function AdjustLeg(cfg: Config, env: Env, m: Rewrites, pending: map<string, Reason>,
    recordsHosts: set<string>, recordsOK: bool, owned: set<string>, eps: seq<Endpoint>): Adjusted
  {
    var desired := Keys(Adjust(cfg, eps));
    var r := RepairPrune(cfg, env, m, Repair(cfg, eps, recordsHosts), recordsOK, owned, desired);
    Adjusted(r.ok, r.rewrites, Retain(pending, desired), r.edits, r.writes)
  }
}
