/**
 Ownership read off the comments' text: which routes an instance reads back and may change, and that a strict
 one leaves every route without its own tag alone, in one batch and in every run.
 */
module Ownership {
  import opened Wrappers
  import opened Text
  import opened FragmentCodec
  import opened Resolver
  import opened Routes
  import opened Reconcile
  import opened PerHost
  import opened Protocol
  import opened Safety

  /** Its own tag; or nobody's, unless the instance is strict. */
  ghost predicate MayChange(cfg: Config, comment: string) {
    BearsTag(comment, cfg.owner) || (!cfg.strict && NoTag(comment))
  }

  lemma ManageableExact(cfg: Config, comment: string)
    ensures Manageable(cfg, comment) <==> MayChange(cfg, comment)
    ensures Owns(cfg, comment) <==> BearsTag(comment, cfg.owner)
    ensures IsTagged(comment) <==> !NoTag(comment)
  {
    OwnerExact(comment, cfg.owner);
  }

  /** The live route is on a listed tunnel, and its comment lets the instance change it. */
  ghost predicate InReach(cfg: Config, s: Store, h: string) {
    h in s.live && s.live[h].tunnel in Tunnels(cfg.resolver) && MayChange(cfg, s.live[h].comment)
  }

  /** What an instance reads back and may delete or move: exactly the routes in its reach. */
  lemma IndexExact(cfg: Config, s: Store, h: string)
    ensures h in OwnedIndex(cfg, s) <==> InReach(cfg, s, h)
    ensures h in OwnedIndex(cfg, s) ==> OwnedIndex(cfg, s)[h] == s.live[h]
    ensures h in Reported(cfg, s) <==> InReach(cfg, s, h) && cfg.matches(h)
  {
    if h in s.live {
      ManageableExact(cfg, s.live[h].comment);
    }
  }

  /** A strict instance that adopts nothing acts only on its own tags. */
  ghost predicate Keeps(cfg: Config) {
    cfg.strict && !cfg.adopt
  }

  /** A call that changes the route at its host is to a route with this owner's tag. */
  ghost predicate OnOwn(cfg: Config, s: Store, d: Decision) {
    d.Go? && Hits(s, d.call) ==> BearsTag(s.live[d.call.host].comment, cfg.owner)
  }

  lemma DecisionOnOwn(cfg: Config, s: Store, ch: Changes, d: Decision)
    requires Keeps(cfg) && d in DecisionsFor(cfg, s, ch)
    ensures OnOwn(cfg, s, d)
  {
    if d.Go? && !d.call.Create? {
      var h := d.call.host;
      assert ExistingFor(cfg, s, ch) == map[];
      assert h in OwnedIndex(cfg, s);
      IndexExact(cfg, s, h);
    }
  }

  lemma {:induction false} RunAllSpares(cfg: Config, env: Env, p: Progress, ds: seq<Decision>, h: string)
    requires ValidStore(p.store) && AllPinned(p.store, ds) && h in p.store.live
    requires forall d :: d in ds && ForHost(d, h) ==> !Hits(p.store, d.call)
    ensures AtHost(RunAll(cfg, env, p, ds).store, h) == AtHost(p.store, h)
    decreases |ds|
  {
    if ds != [] {
      var next := Step(cfg, env, p, ds[0]);
      assert ds[0] in ds;
      StepKeeps(cfg, env, p, ds[0]);
      StepMisses(cfg, env, p, ds[0], h);
      RunAllSpares(cfg, env, next, ds[1..], h);
    }
  }

  lemma StepMisses(cfg: Config, env: Env, p: Progress, d: Decision, h: string)
    requires ValidStore(p.store) && PinnedDecision(p.store, d) && h in p.store.live
    requires ForHost(d, h) ==> !Hits(p.store, d.call)
    ensures AtHost(Step(cfg, env, p, d).store, h) == AtHost(p.store, h)
  {
    if ForHost(d, h) {
      PerformAtHost(p.store, d.call, env(CallOp(KindOf(d.call)), h));
    } else {
      StepElsewhere(cfg, env, p, d, h);
    }
  }

  lemma BatchSpares(cfg: Config, env: Env, s: Store, pending: map<string, Reason>, ch: Changes, h: string)
    requires Keeps(cfg) && ValidStore(s) && h in s.live && !BearsTag(s.live[h].comment, cfg.owner)
    ensures AtHost(RunAll(cfg, env, Begun(cfg, s, pending, ch), DecisionsFor(cfg, s, ch)).store, h) == AtHost(s, h)
  {
    BatchPinned(cfg, s, ch);
    forall d | d in DecisionsFor(cfg, s, ch) && ForHost(d, h)
      ensures !Hits(s, d.call)
    {
      DecisionOnOwn(cfg, s, ch, d);
    }
    RunAllSpares(cfg, env, Begun(cfg, s, pending, ch), DecisionsFor(cfg, s, ch), h);
  }

  /** ApplyChanges leaves the account as it was, or as its decisions do. */
  lemma ApplyStore(cfg: Config, env: Env, s: Store, m: Rewrites, pending: map<string, Reason>, ch: Changes)
    ensures var after := Apply(cfg, env, s, m, pending, ch).progress.store;
      after == s || after == RunAll(cfg, env, Begun(cfg, s, pending, ch), DecisionsFor(cfg, s, ch)).store
  {
  }

  /**
   One ApplyChanges of a strict instance that adopts nothing, whatever is planned and whatever fails: a live
   route without its own tag is not read back, and stays as it is.
   */
  lemma StrictSpares(cfg: Config, env: Env, s: Store, m: Rewrites, pending: map<string, Reason>, ch: Changes, h: string)
    requires Keeps(cfg) && ValidStore(s) && h in s.live && !BearsTag(s.live[h].comment, cfg.owner)
    ensures h !in OwnedIndex(cfg, s) && h !in Reported(cfg, s)
    ensures AtHost(Apply(cfg, env, s, m, pending, ch).progress.store, h) == Some(s.live[h])
  {
    IndexExact(cfg, s, h);
    BatchSpares(cfg, env, s, pending, ch, h);
    ApplyStore(cfg, env, s, m, pending, ch);
  }

  /**
   And in every run of instances of which no two clash: no step of such an instance deletes, moves or
   re-comments a route without its own tag, although it acts on what it read some steps before.
   */
  lemma StrictSparesRun(cfgs: seq<Config>, w: World, ls: seq<Label>, l: Label, h: string)
    requires Fleet(cfgs) && NoClash(cfgs) && WellNumbered(cfgs, w) && Fresh(w)
    requires l.i < |cfgs| && Keeps(cfgs[l.i])
    requires var s := Run(cfgs, w, ls).store; h in s.live && !BearsTag(s.live[h].comment, cfgs[l.i].owner)
    ensures AtHost(Next(cfgs, Run(cfgs, w, ls), l).store, h) == AtHost(Run(cfgs, w, ls).store, h)
  {
    FreshIsSteady(cfgs, w);
    SteadyRun(cfgs, w, ls);
    SteadyStrictSpares(cfgs, Run(cfgs, w, ls), l, h);
  }

  lemma SteadyStrictSpares(cfgs: seq<Config>, w: World, l: Label, h: string)
    requires Fleet(cfgs) && NoClash(cfgs) && AllSteady(cfgs, w) && l.i < |cfgs| && Keeps(cfgs[l.i])
    requires h in w.store.live && !BearsTag(w.store.live[h].comment, cfgs[l.i].owner)
    ensures AtHost(Next(cfgs, w, l).store, h) == AtHost(w.store, h)
  {
    NextStore(cfgs, w, l);
    if CallOf(cfgs, w, l).Some? {
      var c, p := CallOf(cfgs, w, l).value, w.insts[l.i].phase;
      var reply := l.env(CallOp(KindOf(c)), c.host);
      SteadyCallRightful(cfgs, l.i, w.store, p);
      PerformLocal(w.store, c, reply);
      PerformAtHost(w.store, c, reply);
      if h == c.host && Hits(w.store, c) {
        RightfulIsOwn(cfgs, l.i, w.store, p.index, p.existing, c);
      }
    }
  }

  lemma RightfulIsOwn(cfgs: seq<Config>, p: nat, s: Store, index: Index, existing: Index, c: Call)
    requires Fleet(cfgs) && p < |cfgs| && Keeps(cfgs[p]) && Rightful(cfgs, p, s, index, existing, c) && Hits(s, c)
    ensures BearsTag(s.live[c.host].comment, cfgs[p].owner)
  {
    RightfulFinds(cfgs, p, s, index, existing, c);
    ManageableExact(cfgs[p], s.live[c.host].comment);
    if !c.Adopt? {
      ManageableExact(cfgs[p], index[c.host].comment);
    }
  }
}
