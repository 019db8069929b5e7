/**
 What one ApplyChanges does to each hostname, told by the plan, the comments and the replies alone: which route
 is deleted, moved, made or claimed, which host is left waiting, which is reported, and that no other changes.
 */
module Effects {
  import opened Wrappers
  import opened Text
  import opened Sorting
  import opened FragmentCodec
  import opened Resolver
  import opened Routes
  import opened Reconcile
  import opened Endpoints
  import opened PerHost
  import opened Pending
  import opened Stabilise
  import opened Ownership

  /** A real batch that names each host once and gets as far as its calls. */
  ghost predicate Proceeds(cfg: Config, env: Env, s: Store, m: Rewrites, pending: map<string, Reason>, ch: Changes) {
    && !cfg.dryRun && ValidConfig(cfg) && ValidStore(s) && OneChangeEach(ch) && !IsEmptyPlan(ch)
    && !CutShort(Apply(cfg, env, s, m, pending, ch).progress.errs)
  }

  ghost function End(cfg: Config, env: Env, s: Store, m: Rewrites, pending: map<string, Reason>, ch: Changes): Progress
  {
    Apply(cfg, env, s, m, pending, ch).progress
  }

  function ReplyTo(env: Env, kind: CallKind, h: string): Reply {
    env(CallOp(kind), h)
  }

  /** Some problem of the host is reported. */
  ghost predicate Mentions(errs: seq<Problem>, h: string) {
    exists i :: 0 <= i < |errs| && ProblemHost(errs[i]) == Some(h)
  }

  lemma ProceedsRuns(cfg: Config, env: Env, s: Store, m: Rewrites, pending: map<string, Reason>, ch: Changes)
    requires Proceeds(cfg, env, s, m, pending, ch)
    ensures End(cfg, env, s, m, pending, ch) ==
      RunAll(cfg, env, Begun(cfg, s, pending, ch), DecisionsFor(cfg, s, ch))
  {
  }

  // One host of a batch.

  lemma SamePerform(s: Store, s1: Store, c: Call, reply: Reply)
    requires ValidStore(s) && ValidStore(s1) && PinnedCall(s, c) && PinnedCall(s1, c) && !c.Create?
    requires AtHost(s, c.host) == AtHost(s1, c.host)
    ensures AtHost(Perform(s, c, reply).0, c.host) == AtHost(Perform(s1, c, reply).0, c.host)
  {
    PerformAtHost(s, c, reply);
    PerformAtHost(s1, c, reply);
  }

  /** A call that makes no route leaves at its host just what it would have left on its own. */
  lemma {:induction false} RunAllCall(cfg: Config, env: Env, p: Progress, ds: seq<Decision>, k: nat)
    requires !cfg.dryRun && ValidStore(p.store) && AllPinned(p.store, ds) && OneEach(ds)
    requires k < |ds| && ds[k].Go? && !ds[k].call.Create?
    ensures var c := ds[k].call;
      AtHost(RunAll(cfg, env, p, ds).store, c.host) ==
        AtHost(Perform(p.store, c, env(CallOp(KindOf(c)), c.host)).0, c.host)
    decreases |ds|
  {
    var c := ds[k].call;
    var next := Step(cfg, env, p, ds[0]);
    StepKeeps(cfg, env, p, ds[0]);
    if k == 0 {
      forall d | d in ds[1..]
        ensures !ForHost(d, c.host)
      {
        var j :| 0 <= j < |ds| - 1 && ds[1..][j] == d;
        assert ds[j + 1] == d;
      }
      RunAllElsewhere(cfg, env, next, ds[1..], c.host);
    } else {
      assert ds[k] in ds;
      StepElsewhere(cfg, env, p, ds[0], c.host);
      RunAllCall(cfg, env, next, ds[1..], k - 1);
      SamePerform(p.store, next.store, c, env(CallOp(KindOf(c)), c.host));
    }
  }

  /** The host a decision is about. */
  function HostOf(d: Decision): Option<string> {
    match d
    case Skip => None
    case Bad(problem) => ProblemHost(problem)
    case Go(c) => Some(c.host)
  }

  ghost predicate TroubledFor(env: Env, s: Store, ds: seq<Decision>, h: string) {
    exists k :: 0 <= k < |ds| && HostOf(ds[k]) == Some(h) && Troubled(env, s, ds[k])
  }

  lemma MentionsMore(errs: seq<Problem>, more: seq<Problem>, h: string)
    requires |more| <= 1
    ensures Mentions(errs + more, h) <==> Mentions(errs, h) || (more != [] && ProblemHost(more[0]) == Some(h))
  {
    var all := errs + more;
    assert forall i :: 0 <= i < |errs| ==> all[i] == errs[i];
    assert more != [] ==> all[|errs|] == more[0];
  }

  /** The problem one decision adds, if it is troubled. */
  lemma StepMentions(cfg: Config, env: Env, p: Progress, d: Decision, h: string)
    requires !cfg.dryRun && ValidStore(p.store) && PinnedDecision(p.store, d)
    ensures Mentions(Step(cfg, env, p, d).errs, h) <==>
      Mentions(p.errs, h) || (HostOf(d) == Some(h) && Troubled(env, p.store, d))
  {
    match d
    case Skip =>
    case Bad(problem) => MentionsMore(p.errs, [problem], h);
    case Go(c) =>
      StepHere(cfg, env, p, c);
      MentionsMore(p.errs, [CallFailed(c)], h);
  }

  lemma {:induction false} RunAllMentions(cfg: Config, env: Env, p: Progress, ds: seq<Decision>, h: string)
    requires !cfg.dryRun && ValidStore(p.store) && AllPinned(p.store, ds) && OneEach(ds)
    ensures Mentions(RunAll(cfg, env, p, ds).errs, h) <==> Mentions(p.errs, h) || TroubledFor(env, p.store, ds, h)
    decreases |ds|
  {
    if ds != [] {
      var next := Step(cfg, env, p, ds[0]);
      StepKeeps(cfg, env, p, ds[0]);
      StepMentions(cfg, env, p, ds[0], h);
      RunAllMentions(cfg, env, next, ds[1..], h);
      TroubledLater(cfg, env, p, ds, h);
    }
  }

  /** Whether a later decision is troubled does not depend on the first. */
  lemma TroubledLater(cfg: Config, env: Env, p: Progress, ds: seq<Decision>, h: string)
    requires !cfg.dryRun && ValidStore(p.store) && AllPinned(p.store, ds) && OneEach(ds) && ds != []
    ensures TroubledFor(env, p.store, ds, h) <==>
      || (HostOf(ds[0]) == Some(h) && Troubled(env, p.store, ds[0]))
      || TroubledFor(env, Step(cfg, env, p, ds[0]).store, ds[1..], h)
  {
    var next := Step(cfg, env, p, ds[0]).store;
    forall k | 0 < k < |ds|
      ensures Troubled(env, next, ds[k]) <==> Troubled(env, p.store, ds[k])
    {
      if ds[k].Go? {
        StepElsewhere(cfg, env, p, ds[0], ds[k].call.host);
      }
    }
    if TroubledFor(env, p.store, ds, h) {
      var k :| 0 <= k < |ds| && HostOf(ds[k]) == Some(h) && Troubled(env, p.store, ds[k]);
      assert k > 0 ==> ds[1..][k - 1] == ds[k];
    }
    if TroubledFor(env, next, ds[1..], h) {
      var k :| 0 <= k < |ds| - 1 && HostOf(ds[1..][k]) == Some(h) && Troubled(env, next, ds[1..][k]);
      assert ds[k + 1] == ds[1..][k];
    }
  }

  // One change of the plan.

  function All(ch: Changes): seq<Endpoint> {
    ch.delete + ch.update + ch.create
  }

  lemma AllAt(ch: Changes, k: nat)
    requires k < |All(ch)|
    ensures var (d, u) := (|ch.delete|, |ch.update|);
      All(ch)[k] == if k < d then ch.delete[k] else if k < d + u then ch.update[k - d] else ch.create[k - d - u]
  {
  }

  lemma HostOfDecision(cfg: Config, s: Store, ch: Changes, k: nat)
    requires k < |All(ch)| == |DecisionsFor(cfg, s, ch)|
    ensures HostOf(DecisionsFor(cfg, s, ch)[k]) == None || HostOf(DecisionsFor(cfg, s, ch)[k]) == Some(Key(All(ch)[k]))
  {
    AllAt(ch, k);
    DecisionAt(cfg, s, ch, k);
  }

  lemma HostsOfDecisions(cfg: Config, s: Store, ch: Changes)
    ensures |DecisionsFor(cfg, s, ch)| == |All(ch)|
    ensures forall k :: 0 <= k < |All(ch)| ==>
      HostOf(DecisionsFor(cfg, s, ch)[k]) == None || HostOf(DecisionsFor(cfg, s, ch)[k]) == Some(Key(All(ch)[k]))
  {
    DecisionsAt(cfg, s, ch);
    forall k | 0 <= k < |All(ch)|
      ensures var h := HostOf(DecisionsFor(cfg, s, ch)[k]); h == None || h == Some(Key(All(ch)[k]))
    {
      HostOfDecision(cfg, s, ch, k);
    }
  }

  lemma SkippedMentioned(skipped: map<string, Why>, h: string)
    ensures Mentions(SkippedProblems(skipped), h) <==> h in skipped
  {
    var ps := SkippedProblems(skipped);
    if h in skipped {
      SkippedProblemsAre(skipped, h, skipped[h]);
      var i :| 0 <= i < |ps| && ps[i] == Unanswerable(h, skipped[h]);
    }
    if Mentions(ps, h) {
      var i :| 0 <= i < |ps| && ProblemHost(ps[i]) == Some(h);
      MentionIsSkipped(skipped, i);
    }
  }

  lemma MentionIsSkipped(skipped: map<string, Why>, i: nat)
    requires i < |SkippedProblems(skipped)|
    ensures var pr := SkippedProblems(skipped)[i]; pr.Unanswerable? && pr.host in skipped
  {
    SortSetElements(skipped.Keys);
  }

  /** Of the decisions only the k-th is about its host. */
  lemma OnlyHere(cfg: Config, s: Store, ch: Changes, k: nat)
    requires OneChangeEach(ch) && k < |All(ch)|
    ensures forall j :: 0 <= j < |All(ch)| && j != k ==> HostOf(DecisionsFor(cfg, s, ch)[j]) != Some(Key(All(ch)[k]))
    ensures !DecisionsFor(cfg, s, ch)[k].Go? ==>
      forall d :: d in DecisionsFor(cfg, s, ch) ==> !ForHost(d, Key(All(ch)[k]))
  {
    var ds, h := DecisionsFor(cfg, s, ch), Key(All(ch)[k]);
    HostsOfDecisions(cfg, s, ch);
    forall j | 0 <= j < |All(ch)| && j != k
      ensures HostOf(ds[j]) != Some(h)
    {
      assert Key(All(ch)[j]) != h;
    }
    forall d | d in ds && !ds[k].Go?
      ensures !ForHost(d, h)
    {
      var j :| 0 <= j < |ds| && ds[j] == d;
      assert j != k ==> HostOf(ds[j]) != Some(h);
    }
  }

  lemma TroubleHere(cfg: Config, env: Env, s: Store, ch: Changes, k: nat)
    requires OneChangeEach(ch) && k < |All(ch)|
    ensures var ds, h := DecisionsFor(cfg, s, ch), Key(All(ch)[k]);
      k < |ds| && (TroubledFor(env, s, ds, h) <==> HostOf(ds[k]) == Some(h) && Troubled(env, s, ds[k]))
  {
    HostsOfDecisions(cfg, s, ch);
    OnlyHere(cfg, s, ch, k);
  }

  /** Which problems of the k-th change's host are reported. */
  lemma ChangeMentioned(cfg: Config, env: Env, s: Store, m: Rewrites, pending: map<string, Reason>, ch: Changes, k: nat)
    requires Proceeds(cfg, env, s, m, pending, ch) && k < |All(ch)|
    ensures var h := Key(All(ch)[k]);
      && k < |DecisionsFor(cfg, s, ch)|
      && (Mentions(End(cfg, env, s, m, pending, ch).errs, h) <==>
           || h in SkippedFor(cfg, ch)
           || (HostOf(DecisionsFor(cfg, s, ch)[k]) == Some(h) && Troubled(env, s, DecisionsFor(cfg, s, ch)[k])))
  {
    var h := Key(All(ch)[k]);
    ProceedsRuns(cfg, env, s, m, pending, ch);
    BatchPinned(cfg, s, ch);
    DecisionHosts(cfg, IndexFor(cfg, s, ch), ExistingFor(cfg, s, ch), SkippedFor(cfg, ch), ch);
    RunAllMentions(cfg, env, Begun(cfg, s, pending, ch), DecisionsFor(cfg, s, ch), h);
    SkippedMentioned(SkippedFor(cfg, ch), h);
    TroubleHere(cfg, env, s, ch, k);
  }

  /** A change that asks for no call leaves its host as it is. */
  lemma ChangeStays(cfg: Config, env: Env, s: Store, m: Rewrites, pending: map<string, Reason>, ch: Changes, k: nat)
    requires Proceeds(cfg, env, s, m, pending, ch) && k < |All(ch)|
    requires k < |DecisionsFor(cfg, s, ch)| && !DecisionsFor(cfg, s, ch)[k].Go?
    ensures AtHost(End(cfg, env, s, m, pending, ch).store, Key(All(ch)[k])) == AtHost(s, Key(All(ch)[k]))
    ensures SamePending(End(cfg, env, s, m, pending, ch).pending, pending, Key(All(ch)[k]))
  {
    ProceedsRuns(cfg, env, s, m, pending, ch);
    BatchPinned(cfg, s, ch);
    OnlyHere(cfg, s, ch, k);
    RunAllElsewhere(cfg, env, Begun(cfg, s, pending, ch), DecisionsFor(cfg, s, ch), Key(All(ch)[k]));
  }

  /** A call to the route already there leaves what it would have left on its own. */
  lemma ChangeCalls(cfg: Config, env: Env, s: Store, m: Rewrites, pending: map<string, Reason>, ch: Changes, k: nat,
    c: Call)
    requires Proceeds(cfg, env, s, m, pending, ch) && k < |DecisionsFor(cfg, s, ch)|
    requires DecisionsFor(cfg, s, ch)[k] == Go(c) && !c.Create? && Hits(s, c)
    ensures AtHost(End(cfg, env, s, m, pending, ch).store, c.host) ==
      if ReplyTo(env, KindOf(c), c.host).Fails? then AtHost(s, c.host)
      else
        match c
        case Delete(_, _) => None
        case Adopt(_, _, text) => Some(s.live[c.host].(comment := text))
        case Retarget(_, _, t, text) =>
          Some(s.live[c.host].(tunnel := if t == "" then s.live[c.host].tunnel else t,
                               comment := if text == "" then s.live[c.host].comment else text))
    ensures SamePending(End(cfg, env, s, m, pending, ch).pending, pending, c.host)
  {
    ProceedsRuns(cfg, env, s, m, pending, ch);
    BatchPinned(cfg, s, ch);
    DecisionHosts(cfg, IndexFor(cfg, s, ch), ExistingFor(cfg, s, ch), SkippedFor(cfg, ch), ch);
    assert DecisionsFor(cfg, s, ch)[k] in DecisionsFor(cfg, s, ch);
    RunAllCall(cfg, env, Begun(cfg, s, pending, ch), DecisionsFor(cfg, s, ch), k);
    RunAllHere(cfg, env, Begun(cfg, s, pending, ch), DecisionsFor(cfg, s, ch), k);
    PerformAtHost(s, c, ReplyTo(env, KindOf(c), c.host));
  }

  lemma NotCreated(ch: Changes, k: nat)
    requires OneChangeEach(ch) && k < |ch.delete| + |ch.update|
    ensures forall i :: 0 <= i < |ch.create| ==> Key(ch.create[i]) != Key(All(ch)[k])
  {
    forall i | 0 <= i < |ch.create|
      ensures Key(ch.create[i]) != Key(All(ch)[k])
    {
      assert All(ch)[|ch.delete| + |ch.update| + i] == ch.create[i];
    }
  }

  lemma {:induction false} SkippedIsCreated(cfg: Config, eps: seq<Endpoint>, h: string)
    requires forall i :: 0 <= i < |eps| ==> Key(eps[i]) != h
    ensures h !in Skips(cfg, eps)
  {
    if eps != [] {
      SkippedIsCreated(cfg, eps[..|eps| - 1], h);
    }
  }

  /** A host that is deleted or updated is not created, so it is not skipped. */
  lemma NotSkipped(cfg: Config, ch: Changes, k: nat)
    requires OneChangeEach(ch) && k < |ch.delete| + |ch.update|
    ensures Key(All(ch)[k]) !in SkippedFor(cfg, ch)
  {
    NotCreated(ch, k);
    SkippedIsCreated(cfg, ch.create, Key(All(ch)[k]));
  }

  /**
   A planned delete: inside the filter, a route in the instance's reach is gone once the call takes effect, and
   the host is reported unless the call works; any other host is left as it is, without a word.
   */
  lemma DeleteEffect(cfg: Config, env: Env, s: Store, m: Rewrites, pending: map<string, Reason>, ch: Changes, i: nat)
    requires Proceeds(cfg, env, s, m, pending, ch) && i < |ch.delete|
    ensures var h, end := Lower(ch.delete[i].dns), End(cfg, env, s, m, pending, ch);
      var acts, reply := cfg.matches(ch.delete[i].dns) && InReach(cfg, s, h), ReplyTo(env, DeleteRoute, h);
      && AtHost(end.store, h) == (if acts && !reply.Fails? then None else AtHost(s, h))
      && (Mentions(end.errs, h) <==> acts && !reply.Works?)
      && SamePending(end.pending, pending, h)
  {
    var h := Lower(ch.delete[i].dns);
    assert All(ch)[i] == ch.delete[i];
    DecisionsAt(cfg, s, ch);
    IndexExact(cfg, s, h);
    NotSkipped(cfg, ch, i);
    ChangeMentioned(cfg, env, s, m, pending, ch, i);
    var d := DecisionsFor(cfg, s, ch)[i];
    if d.Go? {
      ChangeCalls(cfg, env, s, m, pending, ch, i, d.call);
    } else {
      ChangeStays(cfg, env, s, m, pending, ch, i);
    }
  }

  /** What an update comes to, told by the route there is. */
  lemma UpdateDecided(cfg: Config, s: Store, ch: Changes, ep: Endpoint)
    requires ValidConfig(cfg) && ch.update != []
    ensures var h, want := Lower(ep.dns), Resolve(cfg.resolver, ep.dns);
      DecideUpdate(cfg, IndexFor(cfg, s, ch), ep) ==
        if !cfg.matches(ep.dns) then Skip
        else if want.None? then Bad(NoTunnel(h))
        else if !InReach(cfg, s, h) || s.live[h].tunnel == want.value then Skip
        else Go(Retarget(h, s.live[h].id, want.value, s.live[h].comment))
    ensures Resolve(cfg.resolver, ep.dns).Some? ==> Resolve(cfg.resolver, ep.dns).value != ""
  {
    IndexExact(cfg, s, Lower(ep.dns));
    if Resolve(cfg.resolver, ep.dns).Some? {
      ResolvesToConfigured(cfg.resolver, ep.dns);
    }
  }

  lemma RetargetTroubled(env: Env, s: Store, h: string, t: string, text: string)
    requires h in s.live
    ensures Troubled(env, s, Go(Retarget(h, s.live[h].id, t, text))) <==> !ReplyTo(env, RetargetRoute, h).Works?
  {
  }

  /** The name is inside the filter, and its route within reach is on another tunnel than the one it resolves to. */
  ghost predicate Moves(cfg: Config, s: Store, ep: Endpoint) {
    && cfg.matches(ep.dns) && Resolve(cfg.resolver, ep.dns).Some? && InReach(cfg, s, Lower(ep.dns))
    && s.live[Lower(ep.dns)].tunnel != Resolve(cfg.resolver, ep.dns).value
  }

  lemma MoveDecided(cfg: Config, s: Store, ch: Changes, ep: Endpoint)
    requires ValidConfig(cfg) && ch.update != [] && Moves(cfg, s, ep)
    ensures var h, want := Lower(ep.dns), Resolve(cfg.resolver, ep.dns).value;
      && want != "" && h in s.live
      && DecideUpdate(cfg, IndexFor(cfg, s, ch), ep) == Go(Retarget(h, s.live[h].id, want, s.live[h].comment))
  {
    UpdateDecided(cfg, s, ch, ep);
  }

  lemma LeaveDecided(cfg: Config, s: Store, ch: Changes, ep: Endpoint)
    requires ValidConfig(cfg) && ch.update != [] && !Moves(cfg, s, ep)
    ensures DecideUpdate(cfg, IndexFor(cfg, s, ch), ep) ==
      if cfg.matches(ep.dns) && Resolve(cfg.resolver, ep.dns).None? then Bad(NoTunnel(Lower(ep.dns))) else Skip
  {
    UpdateDecided(cfg, s, ch, ep);
  }

  /** The call that moves the name's route. */
  ghost function MoveCall(cfg: Config, s: Store, ep: Endpoint): Call
    requires Moves(cfg, s, ep)
  {
    var h := Lower(ep.dns);
    Retarget(h, s.live[h].id, Resolve(cfg.resolver, ep.dns).value, s.live[h].comment)
  }

  lemma MoveAt(cfg: Config, s: Store, ch: Changes, i: nat)
    requires ValidConfig(cfg) && i < |ch.update| && Moves(cfg, s, ch.update[i])
    ensures |ch.delete| + i < |DecisionsFor(cfg, s, ch)|
    ensures DecisionsFor(cfg, s, ch)[|ch.delete| + i] == Go(MoveCall(cfg, s, ch.update[i]))
    ensures Hits(s, MoveCall(cfg, s, ch.update[i])) && MoveCall(cfg, s, ch.update[i]).tunnel != ""
  {
    UpdateAt(cfg, s, ch, i);
    MoveDecided(cfg, s, ch, ch.update[i]);
  }

  lemma MoveMentioned(cfg: Config, env: Env, s: Store, m: Rewrites, pending: map<string, Reason>, ch: Changes, i: nat)
    requires Proceeds(cfg, env, s, m, pending, ch) && i < |ch.update| && Moves(cfg, s, ch.update[i])
    ensures var h := Lower(ch.update[i].dns);
      Mentions(End(cfg, env, s, m, pending, ch).errs, h) <==> !ReplyTo(env, RetargetRoute, h).Works?
  {
    var h, k := Lower(ch.update[i].dns), |ch.delete| + i;
    UpdatePlace(ch, i);
    UpdateAt(cfg, s, ch, i);
    MoveDecided(cfg, s, ch, ch.update[i]);
    NotSkipped(cfg, ch, k);
    RetargetTroubled(env, s, h, Resolve(cfg.resolver, ch.update[i].dns).value, s.live[h].comment);
    ChangeMentioned(cfg, env, s, m, pending, ch, k);
  }

  lemma UpdateMoves(cfg: Config, env: Env, s: Store, m: Rewrites, pending: map<string, Reason>, ch: Changes, i: nat)
    requires Proceeds(cfg, env, s, m, pending, ch) && i < |ch.update| && Moves(cfg, s, ch.update[i])
    ensures var h, end := Lower(ch.update[i].dns), End(cfg, env, s, m, pending, ch);
      var want, reply := Resolve(cfg.resolver, ch.update[i].dns).value, ReplyTo(env, RetargetRoute, h);
      && AtHost(end.store, h) == (if reply.Fails? then AtHost(s, h) else Some(s.live[h].(tunnel := want)))
      && SamePending(end.pending, pending, h)
  {
    var c := MoveCall(cfg, s, ch.update[i]);
    MoveAt(cfg, s, ch, i);
    ChangeCalls(cfg, env, s, m, pending, ch, |ch.delete| + i, c);
  }

  lemma UpdateLeaves(cfg: Config, env: Env, s: Store, m: Rewrites, pending: map<string, Reason>, ch: Changes, i: nat)
    requires Proceeds(cfg, env, s, m, pending, ch) && i < |ch.update| && !Moves(cfg, s, ch.update[i])
    ensures var h, end := Lower(ch.update[i].dns), End(cfg, env, s, m, pending, ch);
      && AtHost(end.store, h) == AtHost(s, h) && SamePending(end.pending, pending, h)
      && (Mentions(end.errs, h) <==> cfg.matches(ch.update[i].dns) && Resolve(cfg.resolver, ch.update[i].dns).None?)
  {
    var k := |ch.delete| + i;
    UpdatePlace(ch, i);
    UpdateAt(cfg, s, ch, i);
    LeaveDecided(cfg, s, ch, ch.update[i]);
    NotSkipped(cfg, ch, k);
    ChangeMentioned(cfg, env, s, m, pending, ch, k);
    ChangeStays(cfg, env, s, m, pending, ch, k);
  }

  /**
   A planned update: inside the filter, a route in the instance's reach that is on another tunnel than the one
   its name resolves to is moved there once the call takes effect, under the same id, name and comment. The
   host is reported if no tunnel is configured for it or the call does not work.
   */
  lemma UpdateEffect(cfg: Config, env: Env, s: Store, m: Rewrites, pending: map<string, Reason>, ch: Changes, i: nat)
    requires Proceeds(cfg, env, s, m, pending, ch) && i < |ch.update|
    ensures var h, end := Lower(ch.update[i].dns), End(cfg, env, s, m, pending, ch);
      var want, reply := Resolve(cfg.resolver, ch.update[i].dns), ReplyTo(env, RetargetRoute, h);
      var acts := Moves(cfg, s, ch.update[i]);
      && AtHost(end.store, h) ==
           (if acts && !reply.Fails? then Some(s.live[h].(tunnel := want.value)) else AtHost(s, h))
      && (Mentions(end.errs, h) <==>
           (cfg.matches(ch.update[i].dns) && want.None?) || (acts && !reply.Works?))
      && SamePending(end.pending, pending, h)
  {
    if Moves(cfg, s, ch.update[i]) {
      UpdateMoves(cfg, env, s, m, pending, ch, i);
      MoveMentioned(cfg, env, s, m, pending, ch, i);
    } else {
      UpdateLeaves(cfg, env, s, m, pending, ch, i);
    }
  }

  /** Inside the filter, and answerable in the cluster if the cluster is to answer. */
  ghost predicate LetThrough(cfg: Config, ep: Endpoint) {
    cfg.matches(ep.dns) && (cfg.coredns ==> forall why :: !Unanswered(ep, why))
  }

  /** With adoption on, the name's route on a listed tunnel is one to claim, not one to create over. */
  ghost predicate Offered(cfg: Config, s: Store, h: string) {
    cfg.adopt && h in s.live && s.live[h].tunnel in Tunnels(cfg.resolver)
  }

  /** The comment of what an instance makes or claims. */
  ghost predicate WritesTag(cfg: Config, comment: string) {
    comment == if cfg.owner == "" then "managed-by=external-dns" else "managed-by=external-dns/" + cfg.owner
  }

  lemma TagWritten(cfg: Config)
    ensures WritesTag(cfg, Tag(cfg.owner))
  {
    assert MANAGED_BY + "/" == "managed-by=external-dns/";
  }

  lemma SkippedHere(cfg: Config, ch: Changes, i: nat)
    requires OneChangeEach(ch) && i < |ch.create|
    ensures Key(ch.create[i]) in SkippedFor(cfg, ch) <==>
      cfg.coredns && cfg.matches(ch.create[i].dns) && exists why :: Unanswered(ch.create[i], why)
  {
    var ep, h := ch.create[i], Key(ch.create[i]);
    CreatesDistinct(ch);
    if h in Skips(cfg, ch.create) {
      SkipsExact(cfg, ch.create, h, Skips(cfg, ch.create)[h]);
      var j :| 0 <= j < |ch.create| && LeftOut(cfg, ch.create[j], h, Skips(cfg, ch.create)[h]);
      assert j == i;
    }
    forall why | Unanswered(ep, why) && cfg.matches(ep.dns)
      ensures h in Skips(cfg, ch.create)
    {
      SkipsExact(cfg, ch.create, h, why);
      assert LeftOut(cfg, ep, h, why);
    }
  }

  /** What a create comes to, told by the route there is. */
  lemma CreateDecided(cfg: Config, s: Store, ch: Changes, i: nat)
    requires OneChangeEach(ch) && i < |ch.create|
    ensures var ep := ch.create[i];
      var h, want := Lower(ep.dns), Resolve(cfg.resolver, ep.dns);
      DecideCreate(cfg, ExistingFor(cfg, s, ch), SkippedFor(cfg, ch), ep) ==
        if !LetThrough(cfg, ep) then Skip
        else if want.None? then Bad(NoTunnel(h))
        else if !Offered(cfg, s, h) then Go(Create(h, ep.dns, want.value, Tag(cfg.owner)))
        else if s.live[h].tunnel == want.value && NoTag(s.live[h].comment) then
          Go(Adopt(h, s.live[h].id, Tag(cfg.owner)))
        else if s.live[h].tunnel == want.value && BearsTag(s.live[h].comment, cfg.owner) then Skip
        else Bad(AdoptRefused(h))
  {
    SkippedHere(cfg, ch, i);
    if Lower(ch.create[i].dns) in s.live {
      OwnerExact(s.live[Lower(ch.create[i].dns)].comment, cfg.owner);
    }
  }

  lemma CreatePlace(ch: Changes, i: nat)
    requires i < |ch.create|
    ensures |ch.delete| + |ch.update| + i < |All(ch)| && All(ch)[|ch.delete| + |ch.update| + i] == ch.create[i]
  {
  }

  lemma SameLength(cfg: Config, s: Store, ch: Changes)
    ensures |DecisionsFor(cfg, s, ch)| == |All(ch)|
  {
  }

  /** The decision on a create stands behind all others. */
  lemma CreateAt(cfg: Config, s: Store, ch: Changes, i: nat)
    requires i < |ch.create|
    ensures var k := |ch.delete| + |ch.update| + i;
      && k < |All(ch)| == |DecisionsFor(cfg, s, ch)| && All(ch)[k] == ch.create[i]
      && DecisionsFor(cfg, s, ch)[k] == DecideCreate(cfg, ExistingFor(cfg, s, ch), SkippedFor(cfg, ch), ch.create[i])
  {
    var k := |ch.delete| + |ch.update| + i;
    CreatePlace(ch, i);
    SameLength(cfg, s, ch);
    DecisionAt(cfg, s, ch, k);
  }

  /** The name's route is this instance's, on the tunnel wanted. */
  ghost predicate OwnAlready(cfg: Config, s: Store, h: string, want: Option<string>) {
    h in s.live && want == Some(s.live[h].tunnel) && BearsTag(s.live[h].comment, cfg.owner)
  }

  lemma LeftAloneDecided(cfg: Config, env: Env, s: Store, ch: Changes, i: nat)
    requires OneChangeEach(ch) && i < |ch.create|
    requires var ep := ch.create[i];
      var h, want := Lower(ep.dns), Resolve(cfg.resolver, ep.dns);
      LetThrough(cfg, ep) && want.Some? ==>
        Offered(cfg, s, h) && (s.live[h].tunnel != want.value || !NoTag(s.live[h].comment))
    ensures var ep, d := ch.create[i], DecideCreate(cfg, ExistingFor(cfg, s, ch), SkippedFor(cfg, ch), ch.create[i]);
      var h, want := Lower(ep.dns), Resolve(cfg.resolver, ep.dns);
      && !d.Go?
      && (h in SkippedFor(cfg, ch) || (HostOf(d) == Some(h) && Troubled(env, s, d)) <==>
            cfg.matches(ep.dns) && !(LetThrough(cfg, ep) && OwnAlready(cfg, s, h, want)))
  {
    CreateDecided(cfg, s, ch, i);
    SkippedHere(cfg, ch, i);
  }

  /**
   A planned create that asks for no call: outside the filter, unanswerable, without a tunnel, or refused or
   needless as a claim. Its host stays as it is, and is reported unless it is outside the filter or the route
   there is already this instance's where it belongs.
   */
  lemma CreateLeftAlone(cfg: Config, env: Env, s: Store, m: Rewrites, pending: map<string, Reason>, ch: Changes, i: nat)
    requires Proceeds(cfg, env, s, m, pending, ch) && i < |ch.create|
    requires var ep := ch.create[i];
      var h, want := Lower(ep.dns), Resolve(cfg.resolver, ep.dns);
      LetThrough(cfg, ep) && want.Some? ==>
        Offered(cfg, s, h) && (s.live[h].tunnel != want.value || !NoTag(s.live[h].comment))
    ensures var ep, end := ch.create[i], End(cfg, env, s, m, pending, ch);
      var h, want := Lower(ep.dns), Resolve(cfg.resolver, ep.dns);
      && AtHost(end.store, h) == AtHost(s, h) && SamePending(end.pending, pending, h)
      && (Mentions(end.errs, h) <==> cfg.matches(ep.dns) && !(LetThrough(cfg, ep) && OwnAlready(cfg, s, h, want)))
  {
    var k := |ch.delete| + |ch.update| + i;
    CreateAt(cfg, s, ch, i);
    LeftAloneDecided(cfg, env, s, ch, i);
    ChangeMentioned(cfg, env, s, m, pending, ch, k);
    ChangeStays(cfg, env, s, m, pending, ch, k);
  }

  lemma TagIs(cfg: Config, tag: string)
    requires WritesTag(cfg, tag)
    ensures tag == Tag(cfg.owner)
  {
    TagWritten(cfg);
  }

  lemma LetThroughNotSkipped(cfg: Config, ch: Changes, i: nat)
    requires OneChangeEach(ch) && i < |ch.create| && LetThrough(cfg, ch.create[i])
    ensures Key(ch.create[i]) !in SkippedFor(cfg, ch)
  {
    SkippedHere(cfg, ch, i);
  }

  lemma ClaimDecided(cfg: Config, s: Store, ch: Changes, i: nat, tag: string)
    requires OneChangeEach(ch) && i < |ch.create| && WritesTag(cfg, tag)
    requires var h := Lower(ch.create[i].dns);
      && LetThrough(cfg, ch.create[i]) && Offered(cfg, s, h) && NoTag(s.live[h].comment)
      && Resolve(cfg.resolver, ch.create[i].dns) == Some(s.live[h].tunnel)
    ensures DecideCreate(cfg, ExistingFor(cfg, s, ch), SkippedFor(cfg, ch), ch.create[i]) ==
      Go(Adopt(Lower(ch.create[i].dns), s.live[Lower(ch.create[i].dns)].id, tag))
  {
    TagIs(cfg, tag);
    CreateDecided(cfg, s, ch, i);
  }

  lemma MakesDecided(cfg: Config, s: Store, ch: Changes, i: nat, tag: string)
    requires OneChangeEach(ch) && i < |ch.create| && WritesTag(cfg, tag)
    requires LetThrough(cfg, ch.create[i]) && Resolve(cfg.resolver, ch.create[i].dns).Some?
    requires !Offered(cfg, s, Lower(ch.create[i].dns))
    ensures DecideCreate(cfg, ExistingFor(cfg, s, ch), SkippedFor(cfg, ch), ch.create[i]) ==
      Go(Create(Lower(ch.create[i].dns), ch.create[i].dns, Resolve(cfg.resolver, ch.create[i].dns).value, tag))
  {
    TagIs(cfg, tag);
    CreateDecided(cfg, s, ch, i);
  }

  lemma AdoptTroubled(env: Env, s: Store, h: string, tag: string)
    requires h in s.live
    ensures Troubled(env, s, Go(Adopt(h, s.live[h].id, tag))) <==> !ReplyTo(env, AdoptRoute, h).Works?
  {
  }

  lemma CreateTroubled(env: Env, s: Store, h: string, n: string, t: string, tag: string)
    ensures Troubled(env, s, Go(Create(h, n, t, tag))) <==> !ReplyTo(env, CreateRoute, h).Works?
  {
  }

  /**
   A claim: a route nobody has tagged, already on the tunnel its name resolves to, carries this instance's tag
   once the call takes effect, and is otherwise as it was; the host is reported unless the call works.
   */
  lemma ClaimEffect(cfg: Config, env: Env, s: Store, m: Rewrites, pending: map<string, Reason>, ch: Changes, i: nat,
    tag: string)
    requires Proceeds(cfg, env, s, m, pending, ch) && i < |ch.create| && WritesTag(cfg, tag)
    requires var h := Lower(ch.create[i].dns);
      && LetThrough(cfg, ch.create[i]) && Offered(cfg, s, h) && NoTag(s.live[h].comment)
      && Resolve(cfg.resolver, ch.create[i].dns) == Some(s.live[h].tunnel)
    ensures var h, end := Lower(ch.create[i].dns), End(cfg, env, s, m, pending, ch);
      var reply := ReplyTo(env, AdoptRoute, h);
      && AtHost(end.store, h) == (if reply.Fails? then AtHost(s, h) else Some(s.live[h].(comment := tag)))
      && (Mentions(end.errs, h) <==> !reply.Works?) && SamePending(end.pending, pending, h)
  {
    var k, h := |ch.delete| + |ch.update| + i, Lower(ch.create[i].dns);
    CreateAt(cfg, s, ch, i);
    ClaimDecided(cfg, s, ch, i, tag);
    LetThroughNotSkipped(cfg, ch, i);
    AdoptTroubled(env, s, h, tag);
    ChangeMentioned(cfg, env, s, m, pending, ch, k);
    ChangeCalls(cfg, env, s, m, pending, ch, k, Adopt(h, s.live[h].id, tag));
  }

  /** What a create call leaves behind. */
  lemma ChangeCreates(cfg: Config, env: Env, s: Store, m: Rewrites, pending: map<string, Reason>, ch: Changes, k: nat,
    c: Call)
    requires Proceeds(cfg, env, s, m, pending, ch) && k < |DecisionsFor(cfg, s, ch)|
    requires DecisionsFor(cfg, s, ch)[k] == Go(c) && c.Create?
    ensures var end, reply := End(cfg, env, s, m, pending, ch), ReplyTo(env, CreateRoute, c.host);
      && (c.host !in s.live ==>
            ShapeOf(AtHost(end.store, c.host)) ==
              if reply.Fails? then None else Some(Shape(c.hostname, c.tunnel, c.comment)))
      && (c.host !in s.live && reply.Works? ==> c.host !in end.pending)
      && (!reply.Works? ==> SamePending(end.pending, pending, c.host))
  {
    ProceedsRuns(cfg, env, s, m, pending, ch);
    BatchPinned(cfg, s, ch);
    DecisionHosts(cfg, IndexFor(cfg, s, ch), ExistingFor(cfg, s, ch), SkippedFor(cfg, ch), ch);
    RunAllHere(cfg, env, Begun(cfg, s, pending, ch), DecisionsFor(cfg, s, ch), k);
  }

  /** A create over a live route leaves the route alone, and its host waiting with the reason. */
  lemma ChangeWaits(cfg: Config, env: Env, s: Store, m: Rewrites, pending: map<string, Reason>, ch: Changes, k: nat,
    c: Call)
    requires Proceeds(cfg, env, s, m, pending, ch) && k < |DecisionsFor(cfg, s, ch)|
    requires DecisionsFor(cfg, s, ch)[k] == Go(c) && c.Create? && c.host in s.live
    ensures AtHost(End(cfg, env, s, m, pending, ch).store, c.host) == AtHost(s, c.host)
    ensures ReplyTo(env, CreateRoute, c.host).Works? ==>
      var waits := End(cfg, env, s, m, pending, ch).pending;
      c.host in waits && Explains(cfg, env, s, c.host, waits[c.host])
  {
    var ds, p := DecisionsFor(cfg, s, ch), Begun(cfg, s, pending, ch);
    ProceedsRuns(cfg, env, s, m, pending, ch);
    BatchPinned(cfg, s, ch);
    DecisionHosts(cfg, IndexFor(cfg, s, ch), ExistingFor(cfg, s, ch), SkippedFor(cfg, ch), ch);
    forall d | d in ds && ForHost(d, c.host)
      ensures !Hits(s, d.call)
    {
      var j :| 0 <= j < |ds| && ds[j] == d;
      assert j == k;
    }
    RunAllSpares(cfg, env, p, ds, c.host);
    if ReplyTo(env, CreateRoute, c.host).Works? {
      RefusedReason(cfg, env, p, ds, k);
    }
  }

  /** Why a host waits, by the comment of the route that holds its name. */
  ghost predicate WaitsFor(cfg: Config, holder: Route, reason: Reason) {
    match reason
    case PendingSelf => BearsTag(holder.comment, cfg.owner)
    case PendingUntagged => NoTag(holder.comment)
    case PendingOther => !BearsTag(holder.comment, cfg.owner) && !NoTag(holder.comment)
    case PendingUnknown => false
  }

  lemma ReasonByText(cfg: Config, env: Env, s: Store, h: string, reason: Reason)
    requires h in s.live && Explains(cfg, env, s, h, reason)
    ensures if env(ListAccount, "").Works? then WaitsFor(cfg, s.live[h], reason) else reason == PendingUnknown
  {
    ManageableExact(cfg, s.live[h].comment);
    OwnerExact(s.live[h].comment, cfg.owner);
  }

  /**
   A planned create of a name that is free: once the call takes effect the name has a route on the tunnel it
   resolves to, with this instance's tag, and when the answer arrives the host waits no longer.
   */
  lemma CreateEffect(cfg: Config, env: Env, s: Store, m: Rewrites, pending: map<string, Reason>, ch: Changes, i: nat,
    tag: string)
    requires Proceeds(cfg, env, s, m, pending, ch) && i < |ch.create| && WritesTag(cfg, tag)
    requires LetThrough(cfg, ch.create[i]) && Resolve(cfg.resolver, ch.create[i].dns).Some?
    requires Lower(ch.create[i].dns) !in s.live
    ensures var ep, end := ch.create[i], End(cfg, env, s, m, pending, ch);
      var h, reply := Lower(ep.dns), ReplyTo(env, CreateRoute, Lower(ep.dns));
      && ShapeOf(AtHost(end.store, h)) ==
           (if reply.Fails? then None else Some(Shape(ep.dns, Resolve(cfg.resolver, ep.dns).value, tag)))
      && (Mentions(end.errs, h) <==> !reply.Works?)
      && (if reply.Works? then h !in end.pending else SamePending(end.pending, pending, h))
  {
    var k, ep := |ch.delete| + |ch.update| + i, ch.create[i];
    CreateAt(cfg, s, ch, i);
    MakesDecided(cfg, s, ch, i, tag);
    LetThroughNotSkipped(cfg, ch, i);
    CreateTroubled(env, s, Lower(ep.dns), ep.dns, Resolve(cfg.resolver, ep.dns).value, tag);
    ChangeMentioned(cfg, env, s, m, pending, ch, k);
    ChangeCreates(cfg, env, s, m, pending, ch, k, DecisionsFor(cfg, s, ch)[k].call);
  }

  /**
   A planned create of a name that a route holds and that is not to be claimed: the route stays as it is, and
   when the refusal arrives the host waits, for the reason the holder's comment gives, without being reported.
   */
  lemma WaitEffect(cfg: Config, env: Env, s: Store, m: Rewrites, pending: map<string, Reason>, ch: Changes, i: nat)
    requires Proceeds(cfg, env, s, m, pending, ch) && i < |ch.create|
    requires LetThrough(cfg, ch.create[i]) && Resolve(cfg.resolver, ch.create[i].dns).Some?
    requires Lower(ch.create[i].dns) in s.live && !Offered(cfg, s, Lower(ch.create[i].dns))
    ensures var end, h := End(cfg, env, s, m, pending, ch), Lower(ch.create[i].dns);
      var reply := ReplyTo(env, CreateRoute, h);
      && AtHost(end.store, h) == AtHost(s, h) && (Mentions(end.errs, h) <==> !reply.Works?)
      && (!reply.Works? ==> SamePending(end.pending, pending, h))
      && (reply.Works? ==> h in end.pending)
      && (reply.Works? ==>
           if env(ListAccount, "").Works? then WaitsFor(cfg, s.live[h], end.pending[h])
           else end.pending[h] == PendingUnknown)
  {
    var k, h, ep := |ch.delete| + |ch.update| + i, Lower(ch.create[i].dns), ch.create[i];
    CreateAt(cfg, s, ch, i);
    TagWritten(cfg);
    MakesDecided(cfg, s, ch, i, Tag(cfg.owner));
    LetThroughNotSkipped(cfg, ch, i);
    CreateTroubled(env, s, h, ep.dns, Resolve(cfg.resolver, ep.dns).value, Tag(cfg.owner));
    ChangeMentioned(cfg, env, s, m, pending, ch, k);
    ChangeCreates(cfg, env, s, m, pending, ch, k, DecisionsFor(cfg, s, ch)[k].call);
    ChangeWaits(cfg, env, s, m, pending, ch, k, DecisionsFor(cfg, s, ch)[k].call);
    if ReplyTo(env, CreateRoute, h).Works? {
      ReasonByText(cfg, env, s, h, End(cfg, env, s, m, pending, ch).pending[h]);
    }
  }

  lemma NobodyThere(cfg: Config, s: Store, ch: Changes, h: string)
    requires forall k :: 0 <= k < |All(ch)| ==> Key(All(ch)[k]) != h
    ensures forall d :: d in DecisionsFor(cfg, s, ch) ==> HostOf(d) != Some(h)
  {
    var ds := DecisionsFor(cfg, s, ch);
    HostsOfDecisions(cfg, s, ch);
    forall d | d in ds
      ensures HostOf(d) != Some(h)
    {
      var j :| 0 <= j < |ds| && ds[j] == d;
    }
  }

  /** A host the plan does not name keeps its route and its place in the queue, and is not reported. */
  lemma NoEffect(cfg: Config, env: Env, s: Store, m: Rewrites, pending: map<string, Reason>, ch: Changes, h: string)
    requires Proceeds(cfg, env, s, m, pending, ch)
    requires forall k :: 0 <= k < |All(ch)| ==> Key(All(ch)[k]) != h
    ensures var end := End(cfg, env, s, m, pending, ch);
      AtHost(end.store, h) == AtHost(s, h) && SamePending(end.pending, pending, h) && !Mentions(end.errs, h)
  {
    var ds, p, n := DecisionsFor(cfg, s, ch), Begun(cfg, s, pending, ch), |ch.delete| + |ch.update|;
    ProceedsRuns(cfg, env, s, m, pending, ch);
    BatchPinned(cfg, s, ch);
    DecisionHosts(cfg, IndexFor(cfg, s, ch), ExistingFor(cfg, s, ch), SkippedFor(cfg, ch), ch);
    NobodyThere(cfg, s, ch, h);
    assert forall d :: d in ds ==> !ForHost(d, h);
    RunAllElsewhere(cfg, env, p, ds, h);
    RunAllMentions(cfg, env, p, ds, h);
    assert forall i :: 0 <= i < |ch.create| ==> All(ch)[n + i] == ch.create[i];
    SkippedIsCreated(cfg, ch.create, h);
    SkippedMentioned(SkippedFor(cfg, ch), h);
  }
}
