/**
 One instance of the provider: the loops that list, index, decide and call, proved to do exactly
 what the decision functions of Reconcile say.
 */
module ProviderEngine {
  import opened Wrappers
  import opened Text
  import opened Sorting
  import opened FragmentCodec
  import opened FragmentStore
  import opened Resolver
  import opened Routes
  import opened AccountApi
  import opened Reconcile
  import opened Endpoints

  function Waiting(pending: map<string, Reason>, reason: Reason): set<string> {
    set h | h in pending && pending[h] == reason
  }

  /** The published counts, one for each reason there is. */
  datatype Counts = Counts(self: nat, other: nat, untagged: nat, unknown: nat)
  {
    function Bump(reason: Reason): Counts {
      match reason
      case PendingSelf => this.(self := self + 1)
      case PendingOther => this.(other := other + 1)
      case PendingUntagged => this.(untagged := untagged + 1)
      case PendingUnknown => this.(unknown := unknown + 1)
    }
  }

  /** How many hosts wait, reason by reason. */
  function Gauge(pending: map<string, Reason>): Counts {
    Counts(|Waiting(pending, PendingSelf)|, |Waiting(pending, PendingOther)|,
      |Waiting(pending, PendingUntagged)|, |Waiting(pending, PendingUnknown)|)
  }

  lemma WaitingGrows(pending: map<string, Reason>, h: string, reason: Reason, r: Reason)
    requires h !in pending
    ensures |Waiting(pending[h := reason], r)| == |Waiting(pending, r)| + if r == reason then 1 else 0
  {
    assert Waiting(pending[h := reason], r) == Waiting(pending, r) + if r == reason then {h} else {};
  }

  lemma GaugeGrows(pending: map<string, Reason>, h: string, reason: Reason)
    requires h !in pending
    ensures Gauge(pending[h := reason]) == Gauge(pending).Bump(reason)
  {
    WaitingGrows(pending, h, reason, PendingSelf);
    WaitingGrows(pending, h, reason, PendingOther);
    WaitingGrows(pending, h, reason, PendingUntagged);
    WaitingGrows(pending, h, reason, PendingUnknown);
  }

  /** The hosts this instance manages on one tunnel, before the domain filter. */
  function ManagedOn(cfg: Config, s: Store, tunnel: string): set<string> {
    set h | h in s.live && s.live[h].tunnel == tunnel && Manageable(cfg, s.live[h].comment)
  }

  function SumOver(m: map<string, nat>, ts: seq<string>): nat
    requires forall t :: t in ts ==> t in m
  {
    if ts == [] then 0 else SumOver(m, ts[..|ts| - 1]) + m[ts[|ts| - 1]]
  }

  lemma {:induction false} SumOverFrame(m: map<string, nat>, ts: seq<string>, t: string, n: nat)
    requires t !in ts && forall u :: u in ts ==> u in m
    ensures SumOver(m[t := n], ts) == SumOver(m, ts)
  {
    if ts != [] {
      SumOverFrame(m, ts[..|ts| - 1], t, n);
    }
  }

  /** Records' answer: each reported route once, at its tunnel's canonical target. */
  ghost predicate IsReport(cfg: Config, s: Store, out: seq<Endpoint>) {
    && Keys(out) == Reported(cfg, s)
    && (forall i :: 0 <= i < |out| ==> IsReportOf(s, out[i]))
    && DistinctKeys(out)
  }

  /** What Records gathers: the report, the owned hosts, and those outside the filter. */
  datatype Tally = Tally(out: seq<Endpoint>, owned: set<string>, outside: seq<string>)

  function Tallied(cfg: Config, tunnel: string, t: Tally, r: Route): Tally {
    if cfg.matches(r.hostname)
    then Tally(t.out + [Endpoint(r.hostname, Target(tunnel), map[])], t.owned + {Lower(r.hostname)}, t.outside)
    else Tally(t.out, t.owned + {Lower(r.hostname)}, t.outside + [Lower(r.hostname)])
  }

  /** The managed hosts among the routes read so far. */
  ghost function Seen(cfg: Config, s: Store, done: seq<Route>): set<string> {
    set h | h in s.live && s.live[h] in done && Manageable(cfg, s.live[h].comment)
  }

  ghost predicate Reports(cfg: Config, s: Store, t: Tally) {
    match t
    case Tally(out, owned, outside) =>
      && Keys(out) == (set h | h in owned && cfg.matches(h))
      && (forall i :: 0 <= i < |out| ==> IsReportOf(s, out[i]))
      && DistinctKeys(out)
      && |out| + |outside| == |owned|
  }

  ghost predicate TallyOf(cfg: Config, s: Store, ts: seq<string>, t: Tally) {
    && t.owned == OwnHosts(cfg, s, ts)
    && Reports(cfg, s, t)
  }

  function CountsOver(cfg: Config, s: Store, ts: seq<string>): map<string, nat> {
    map t | t in ts :: |ManagedOn(cfg, s, t)|
  }

  ghost function OwnHosts(cfg: Config, s: Store, ts: seq<string>): set<string> {
    Selected(cfg, Own, s, ts).Keys
  }

  lemma OwnHostsGrow(cfg: Config, s: Store, ts: seq<string>, t: string)
    requires t !in ts
    ensures OwnHosts(cfg, s, ts + [t]) == OwnHosts(cfg, s, ts) + ManagedOn(cfg, s, t)
    ensures OwnHosts(cfg, s, ts) !! ManagedOn(cfg, s, t)
  {
    forall h
      ensures h in OwnHosts(cfg, s, ts + [t]) <==> h in OwnHosts(cfg, s, ts) || h in ManagedOn(cfg, s, t)
    {
    }
  }

  lemma CountsGrow(cfg: Config, s: Store, ts: seq<string>, t: string)
    ensures CountsOver(cfg, s, ts + [t]) == CountsOver(cfg, s, ts)[t := |ManagedOn(cfg, s, t)|]
  {
  }

  lemma {:induction false} CountsSum(cfg: Config, s: Store, ts: seq<string>)
    requires Distinct(ts)
    ensures SumOver(CountsOver(cfg, s, ts), ts) == |OwnHosts(cfg, s, ts)|
  {
    if ts == [] {
      assert OwnHosts(cfg, s, ts) == {};
    } else {
      var front, t := ts[..|ts| - 1], ts[|ts| - 1];
      assert ts == front + [t] && t !in front;
      CountsSum(cfg, s, front);
      CountsGrow(cfg, s, front, t);
      OwnHostsGrow(cfg, s, front, t);
      SumOverFrame(CountsOver(cfg, s, front), front, t, |ManagedOn(cfg, s, t)|);
    }
  }

  /** Every managed route is either reported or outside the filter, and counted on one tunnel. */
  lemma RecordsTotals(cfg: Config, s: Store, t: Tally)
    requires ValidConfig(cfg) && TallyOf(cfg, s, Tunnels(cfg.resolver), t)
    ensures IsReport(cfg, s, t.out)
    ensures |t.out| == |Reported(cfg, s)|
    ensures SumOver(CountsOver(cfg, s, Tunnels(cfg.resolver)), Tunnels(cfg.resolver)) == |t.out| + |t.outside|
  {
    TunnelsDistinct(cfg.resolver);
    CountsSum(cfg, s, Tunnels(cfg.resolver));
    DistinctKeysCount(t.out);
    assert Keys(t.out) == Reported(cfg, s);
  }

  /** Part way through one tunnel's listing. */
  ghost predicate TallyPart(cfg: Config, s: Store, ts: seq<string>, done: seq<Route>, t: Tally) {
    match t
    case Tally(_, owned, _) => owned == OwnHosts(cfg, s, ts) + Seen(cfg, s, done) && Reports(cfg, s, t)
  }

  lemma SeenStep(cfg: Config, s: Store, scope: Option<string>, rs: seq<Route>, j: nat)
    requires ValidStore(s) && ListingOf(s, scope, rs) && j < |rs|
    ensures var r := rs[j];
      var before, after := Seen(cfg, s, rs[..j]), Seen(cfg, s, rs[..j + 1]);
      if r.deleted || !Manageable(cfg, r.comment) then after == before
      else Lower(r.hostname) !in before && after == before + {Lower(r.hostname)}
  {
    var r, h := rs[j], Lower(rs[j].hostname);
    assert rs[..j + 1] == rs[..j] + [r];
    if !r.deleted {
      assert Listed(s, scope, r);
      NotSeenYet(s, scope, rs, j);
    }
  }

  lemma ReportsGrow(cfg: Config, s: Store, tunnel: string, t: Tally, r: Route)
    requires ValidConfig(cfg) && Reports(cfg, s, t)
    requires Listed(s, Some(tunnel), r) && Lower(r.hostname) !in t.owned
    ensures Reports(cfg, s, Tallied(cfg, tunnel, t, r))
  {
    var h := Lower(r.hostname);
    assert cfg.matches(h) == cfg.matches(r.hostname);
    if cfg.matches(r.hostname) {
      KeysAppend(t.out, Endpoint(r.hostname, Target(tunnel), map[]));
    }
  }

  lemma UnionAssoc(a: set<string>, b: set<string>, h: string)
    ensures (a + b) + {h} == a + (b + {h})
  {
  }

  lemma NotOwnedYet(cfg: Config, s: Store, ts: seq<string>, tunnel: string, rs: seq<Route>, j: nat, t: Tally)
    requires ValidStore(s) && tunnel !in ts && ListingOf(s, Some(tunnel), rs) && j < |rs|
    requires TallyPart(cfg, s, ts, rs[..j], t) && !rs[j].deleted && Manageable(cfg, rs[j].comment)
    ensures Listed(s, Some(tunnel), rs[j]) && Lower(rs[j].hostname) !in t.owned
    ensures Seen(cfg, s, rs[..j + 1]) == Seen(cfg, s, rs[..j]) + {Lower(rs[j].hostname)}
  {
    SeenStep(cfg, s, Some(tunnel), rs, j);
    assert Listed(s, Some(tunnel), rs[j]);
  }

  lemma TallyStep(cfg: Config, s: Store, ts: seq<string>, tunnel: string, rs: seq<Route>, j: nat, t: Tally)
    requires ValidConfig(cfg) && ValidStore(s) && tunnel !in ts
    requires ListingOf(s, Some(tunnel), rs) && j < |rs|
    requires TallyPart(cfg, s, ts, rs[..j], t)
    requires !rs[j].deleted && Manageable(cfg, rs[j].comment)
    ensures TallyPart(cfg, s, ts, rs[..j + 1], Tallied(cfg, tunnel, t, rs[j]))
  {
    NotOwnedYet(cfg, s, ts, tunnel, rs, j, t);
    ReportsGrow(cfg, s, tunnel, t, rs[j]);
    UnionAssoc(OwnHosts(cfg, s, ts), Seen(cfg, s, rs[..j]), Lower(rs[j].hostname));
  }

  /** Part way through one tunnel's listing: what has been gathered, and how many of its routes are managed. */
  ghost predicate Recorded(cfg: Config, s: Store, ts: seq<string>, done: seq<Route>, t: Tally, count: nat) {
    match t
    case Tally(_, _, _) => TallyPart(cfg, s, ts, done, t) && count == |Seen(cfg, s, done)|
  }

  lemma RecordedSkip(cfg: Config, s: Store, ts: seq<string>, tunnel: string, rs: seq<Route>, j: nat, t: Tally,
    count: nat)
    requires ValidStore(s) && ListingOf(s, Some(tunnel), rs) && j < |rs|
    requires Recorded(cfg, s, ts, rs[..j], t, count) && (rs[j].deleted || !Manageable(cfg, rs[j].comment))
    ensures Recorded(cfg, s, ts, rs[..j + 1], t, count)
  {
    SeenStep(cfg, s, Some(tunnel), rs, j);
  }

  lemma RecordedMore(cfg: Config, s: Store, ts: seq<string>, tunnel: string, rs: seq<Route>, j: nat, t: Tally,
    count: nat)
    requires ValidConfig(cfg) && ValidStore(s) && tunnel !in ts && ListingOf(s, Some(tunnel), rs) && j < |rs|
    requires Recorded(cfg, s, ts, rs[..j], t, count) && !rs[j].deleted && Manageable(cfg, rs[j].comment)
    ensures Recorded(cfg, s, ts, rs[..j + 1], Tallied(cfg, tunnel, t, rs[j]), count + 1)
  {
    TallyStep(cfg, s, ts, tunnel, rs, j, t);
    SeenStep(cfg, s, Some(tunnel), rs, j);
  }

  lemma SeenAll(cfg: Config, s: Store, tunnel: string, rs: seq<Route>)
    requires ValidStore(s) && ListingOf(s, Some(tunnel), rs)
    ensures Seen(cfg, s, rs) == ManagedOn(cfg, s, tunnel)
  {
    forall h | h in Seen(cfg, s, rs)
      ensures s.live[h].tunnel == tunnel
    {
      var i :| 0 <= i < |rs| && rs[i] == s.live[h];
      assert Listed(s, Some(tunnel), rs[i]);
    }
  }

  lemma RecordedNothing(cfg: Config, s: Store, ts: seq<string>, t: Tally)
    requires TallyOf(cfg, s, ts, t)
    ensures Recorded(cfg, s, ts, [], t, 0)
  {
    assert Seen(cfg, s, []) == {};
    assert OwnHosts(cfg, s, ts) + {} == OwnHosts(cfg, s, ts);
  }

  lemma RecordedAll(cfg: Config, s: Store, ts: seq<string>, tunnel: string, rs: seq<Route>, t: Tally, count: nat)
    requires ValidStore(s) && ListingOf(s, Some(tunnel), rs) && tunnel !in ts && Recorded(cfg, s, ts, rs, t, count)
    ensures TallyOf(cfg, s, ts + [tunnel], t) && count == |ManagedOn(cfg, s, tunnel)|
  {
    SeenAll(cfg, s, tunnel, rs);
    OwnHostsGrow(cfg, s, ts, tunnel);
  }

  /** Part way through one tunnel's listing, the index holds what was eligible so far. */
  ghost predicate IndexedPart(cfg: Config, which: Which, s: Store, ts: seq<string>, done: seq<Route>, index: Index) {
    && (forall h :: h in index <==>
          h in s.live && Eligible(cfg, which, s.live[h]) && (s.live[h].tunnel in ts || s.live[h] in done))
    && (forall h :: h in index ==> index[h] == s.live[h])
  }

  lemma IndexSkip(cfg: Config, which: Which, s: Store, ts: seq<string>, tunnel: string, rs: seq<Route>, j: nat,
    index: Index)
    requires ValidStore(s) && ListingOf(s, Some(tunnel), rs) && j < |rs|
    requires IndexedPart(cfg, which, s, ts, rs[..j], index)
    requires rs[j].deleted || !Eligible(cfg, which, rs[j])
    ensures IndexedPart(cfg, which, s, ts, rs[..j + 1], index)
  {
    assert rs[..j + 1] == rs[..j] + [rs[j]];
  }

  lemma IndexMore(cfg: Config, which: Which, s: Store, ts: seq<string>, tunnel: string, rs: seq<Route>, j: nat,
    index: Index)
    requires ValidStore(s) && ListingOf(s, Some(tunnel), rs) && j < |rs|
    requires IndexedPart(cfg, which, s, ts, rs[..j], index)
    requires !rs[j].deleted && Eligible(cfg, which, rs[j])
    ensures IndexedPart(cfg, which, s, ts, rs[..j + 1], index[Lower(rs[j].hostname) := rs[j]])
  {
    assert rs[..j + 1] == rs[..j] + [rs[j]];
    assert Listed(s, Some(tunnel), rs[j]);
  }

  lemma IndexedAll(cfg: Config, which: Which, s: Store, ts: seq<string>, tunnel: string, rs: seq<Route>, index: Index)
    requires ValidStore(s) && ListingOf(s, Some(tunnel), rs) && IndexedPart(cfg, which, s, ts, rs, index)
    ensures index == Selected(cfg, which, s, ts + [tunnel])
  {
    forall h | h in index
      ensures s.live[h].tunnel in ts + [tunnel]
    {
      if s.live[h].tunnel !in ts {
        var i :| 0 <= i < |rs| && rs[i] == s.live[h];
        assert Listed(s, Some(tunnel), rs[i]);
      }
    }
  }

  /** These tunnels have been listed, with this result. */
  ghost predicate ListedPart(cfg: Config, s: Store, env: Env, ts: seq<string>, t: Tally, counts: map<string, nat>) {
    match t
    case Tally(_, _, _) =>
      (forall u :: u in ts ==> env(ListRecords, u).Works?) && TallyOf(cfg, s, ts, t) && counts == CountsOver(cfg, s, ts)
  }

  lemma ListedNone(cfg: Config, s: Store, env: Env)
    ensures ListedPart(cfg, s, env, [], Tally([], {}, []), map[])
  {
    assert OwnHosts(cfg, s, []) == {};
  }

  lemma ListedNext(ts: seq<string>, i: nat)
    requires i < |ts| && Distinct(ts)
    ensures ts[..i + 1] == ts[..i] + [ts[i]] && ts[i] !in ts[..i]
  {
  }

  lemma NotSeenYet(s: Store, scope: Option<string>, rs: seq<Route>, j: nat)
    requires ValidStore(s) && ListingOf(s, scope, rs) && j < |rs| && !rs[j].deleted
    ensures s.live[Lower(rs[j].hostname)] !in rs[..j]
  {
    assert Listed(s, scope, rs[j]);
    assert forall i :: 0 <= i < j ==> rs[i] != rs[j];
  }

  /** The first i decisions of a batch have been carried out, with these problems. */
  ghost predicate Carried(cfg: Config, env: Env, p0: Progress, ds: seq<Decision>, i: nat, p: Progress,
    errs: seq<Problem>)
  {
    match p
    case Progress(_, _, _, _, _) =>
      i <= |ds| && p == RunAll(cfg, env, p0, ds[..i]) && p.errs == p0.errs + errs && p.seen == p0.seen
  }

  lemma CarriedNone(cfg: Config, env: Env, p0: Progress, ds: seq<Decision>)
    ensures Carried(cfg, env, p0, ds, 0, p0, [])
  {
  }

  lemma CarriedNext(cfg: Config, env: Env, p0: Progress, ds: seq<Decision>, i: nat, p: Progress, errs: seq<Problem>,
    p1: Progress, more: seq<Problem>)
    requires i < |ds| && Carried(cfg, env, p0, ds, i, p, errs)
    requires p1 == Step(cfg, env, p, ds[i]) && p1.errs == p.errs + more && p1.seen == p.seen
    ensures Carried(cfg, env, p0, ds, i + 1, p1, errs + more)
  {
    RunAllNext(cfg, env, p0, ds, i);
    assert p0.errs + (errs + more) == (p0.errs + errs) + more;
  }

  lemma CarriedAll(cfg: Config, env: Env, p0: Progress, ds: seq<Decision>, p: Progress, errs: seq<Problem>)
    requires Carried(cfg, env, p0, ds, |ds|, p, errs)
    ensures p == RunAll(cfg, env, p0, ds) && p.errs == p0.errs + errs && p.seen == p0.seen
  {
    assert ds[..|ds|] == ds;
  }

  /** The first i creates of a batch have been carried out, with these problems. */
  ghost predicate Created(cfg: Config, env: Env, p0: Progress, ds: seq<Decision>, i: nat, p: Progress,
    errs: seq<Problem>)
  {
    match p
    case Progress(_, _, _, _, _) => i <= |ds| && p == RunAll(cfg, env, p0, ds[..i]) && p.errs == p0.errs + errs
  }

  lemma CreatedNone(cfg: Config, env: Env, p0: Progress, ds: seq<Decision>)
    ensures Created(cfg, env, p0, ds, 0, p0, [])
  {
  }

  lemma CreatedNext(cfg: Config, env: Env, p0: Progress, ds: seq<Decision>, i: nat, p: Progress, errs: seq<Problem>,
    p1: Progress, more: seq<Problem>)
    requires i < |ds| && Created(cfg, env, p0, ds, i, p, errs)
    requires p1 == RunAll(cfg, env, p0, ds[..i + 1]) && p1.errs == p.errs + more
    ensures Created(cfg, env, p0, ds, i + 1, p1, errs + more)
  {
    assert p0.errs + (errs + more) == (p0.errs + errs) + more;
  }

  lemma CreatedAll(cfg: Config, env: Env, p0: Progress, ds: seq<Decision>, p: Progress, errs: seq<Problem>)
    requires Created(cfg, env, p0, ds, |ds|, p, errs)
    ensures p == RunAll(cfg, env, p0, ds) && p.errs == p0.errs + errs
  {
    assert ds[..|ds|] == ds;
  }

  lemma EditedCarriable(m: Rewrites, add: Rewrites, remove: seq<string>)
    requires Carriable(m) && Carriable(add)
    ensures Carriable(Edited(m, add, remove))
  {
  }

  lemma Concat<T>(a: seq<T>, b: seq<T>, c: seq<T>)
    ensures a + (b + c) == (a + b) + c
  {
  }

  lemma KeysAppend(eps: seq<Endpoint>, ep: Endpoint)
    ensures Keys(eps + [ep]) == Keys(eps) + {Key(ep)}
    ensures DistinctKeys(eps) && Key(ep) !in Keys(eps) ==> DistinctKeys(eps + [ep])
  {
    forall k
      ensures k in Keys(eps + [ep]) <==> k in Keys(eps) || k == Key(ep)
    {
      if k in Keys(eps) {
        var i :| 0 <= i < |eps| && Key(eps[i]) == k;
        assert (eps + [ep])[i] == eps[i];
      }
      assert (eps + [ep])[|eps|] == ep;
    }
  }

  lemma {:induction false} DistinctKeysCount(eps: seq<Endpoint>)
    requires DistinctKeys(eps)
    ensures |Keys(eps)| == |eps|
  {
    if eps != [] {
      var front, last := eps[..|eps| - 1], eps[|eps| - 1];
      assert eps == front + [last];
      KeysAppend(front, last);
      DistinctKeysCount(front);
      assert Key(last) !in Keys(front);
    }
  }

  ghost predicate IsReportOf(s: Store, ep: Endpoint) {
    Key(ep) in s.live && ep == Endpoint(s.live[Key(ep)].hostname, Target(s.live[Key(ep)].tunnel), map[])
  }

  /** Adds one tunnel's eligible routes to an index. */
  method IndexTunnel(cfg: Config, index: Index, which: Which, rs: seq<Route>, ghost s: Store, ghost ts: seq<string>,
    ghost tunnel: string)
    returns (out: Index)
    requires ValidStore(s) && ListingOf(s, Some(tunnel), rs)
    requires index == Selected(cfg, which, s, ts)
    ensures out == Selected(cfg, which, s, ts + [tunnel])
  {
    out := index;
    for j := 0 to |rs|
      invariant IndexedPart(cfg, which, s, ts, rs[..j], out)
    {
      if rs[j].deleted || !Eligible(cfg, which, rs[j]) {
        IndexSkip(cfg, which, s, ts, tunnel, rs, j, out);
        continue;
      }
      IndexMore(cfg, which, s, ts, tunnel, rs, j, out);
      out := out[Lower(rs[j].hostname) := rs[j]];
    }
    assert rs[..|rs|] == rs;
    IndexedAll(cfg, which, s, ts, tunnel, rs, out);
  }

  /** Adds one tunnel's managed routes to what Records has gathered, and counts them. */
  method RecordTunnel(cfg: Config, rs: seq<Route>, tunnel: string, ghost s: Store, ghost ts: seq<string>, t0: Tally)
    returns (t: Tally, count: nat)
    requires ValidConfig(cfg) && ValidStore(s)
    requires ListingOf(s, Some(tunnel), rs) && tunnel !in ts
    requires TallyOf(cfg, s, ts, t0)
    ensures TallyOf(cfg, s, ts + [tunnel], t)
    ensures count == |ManagedOn(cfg, s, tunnel)|
  {
    t, count := t0, 0;
    RecordedNothing(cfg, s, ts, t0);
    for j := 0 to |rs|
      invariant Recorded(cfg, s, ts, rs[..j], t, count)
    {
      if rs[j].deleted || !Manageable(cfg, rs[j].comment) {
        RecordedSkip(cfg, s, ts, tunnel, rs, j, t, count);
        continue;
      }
      RecordedMore(cfg, s, ts, tunnel, rs, j, t, count);
      t, count := Tallied(cfg, tunnel, t, rs[j]), count + 1;
    }
    assert rs[..|rs|] == rs;
    RecordedAll(cfg, s, ts, tunnel, rs, t, count);
  }

  /** Deletes, updates and creates carried out one list after the other. */
  lemma BatchInThree(cfg: Config, env: Env, p: Progress, index: Index, existing: Index, skipped: map<string, Why>,
    ch: Changes)
    requires ValidStore(p.store) && AllPinned(p.store, Decisions(cfg, index, existing, skipped, ch))
    ensures var crts := DecideCreates(cfg, existing, skipped, ch.create);
      var p2 := RunAll(cfg, env, RunAll(cfg, env, p, DecideDeletes(cfg, index, ch.delete)),
        DecideUpdates(cfg, index, ch.update));
      && ValidStore(p2.store) && AllPinned(p2.store, crts)
      && RunAll(cfg, env, p, Decisions(cfg, index, existing, skipped, ch)) == RunAll(cfg, env, p2, crts)
  {
    var dels, upds := DecideDeletes(cfg, index, ch.delete), DecideUpdates(cfg, index, ch.update);
    var crts := DecideCreates(cfg, existing, skipped, ch.create);
    var all := Decisions(cfg, index, existing, skipped, ch);
    assert all == (dels + upds) + crts;
    assert forall d :: d in dels + upds ==> d in all;
    assert forall d :: d in crts ==> d in all;
    RunAllKeeps(cfg, env, p, dels + upds, crts);
    RunAllConcat(cfg, env, p, dels, upds);
    RunAllConcat(cfg, env, p, dels + upds, crts);
  }

  lemma CoreDNSExact(cfg: Config, env: Env, stage: Stage, m: Rewrites, ch: Changes)
    requires cfg.coredns
    ensures DistinctKeys(ch.create) ==> SkippedAre(cfg, ch.create, SkippedFor(cfg, ch))
    ensures DistinctKeys(ch.create) && !cfg.dryRun && FragmentLeg(cfg, env, stage, m, ch).ok ==>
      Rewritten(cfg, ch, m, FragmentLeg(cfg, env, stage, m, ch).after)
  {
    if DistinctKeys(ch.create) {
      SkipsAre(cfg, ch.create);
      if !cfg.dryRun && FragmentLeg(cfg, env, stage, m, ch).ok {
        LegExact(cfg, env, stage, m, ch);
      }
    }
  }

  class Provider {
    const cfg: Config
    const account: Account
    const fragment: Fragment

    var recordsHosts: set<string>
    var ownedHosts: set<string>
    var recordsOK: bool
    var pending: map<string, Reason>

    // Published gauges.
    var waiting: Counts
    var perTunnel: map<string, nat>
    var managed: nat
    var outOfFilter: nat

    /** Route calls dry run reported instead of making. */
    var would: seq<Call>
    /** The fragment edits asked for: made, or in dry run only reported. */
    var edits: seq<(Rewrites, seq<string>)>

    constructor (cfg: Config, account: Account, fragment: Fragment)
      requires ValidConfig(cfg) && ValidStore(account.store)
      ensures Valid()
      ensures this.cfg == cfg && this.account == account && this.fragment == fragment
      ensures pending == map[] && !recordsOK && recordsHosts == {} && ownedHosts == {}
      ensures would == [] && edits == []
    {
      this.cfg, this.account, this.fragment := cfg, account, fragment;
      recordsHosts, ownedHosts, recordsOK, pending := {}, {}, false, map[];
      waiting := Gauge(map[]);
      perTunnel, managed, outOfFilter, would, edits := map[], 0, 0, [], [];
    }

    /** The gauge always shows the pending hosts, reason by reason. */
    ghost predicate Valid()
      reads this, account
    {
      && ValidConfig(cfg)
      && ValidStore(account.store)
      && waiting == Gauge(pending)
    }

    method PublishPending()
      modifies this`waiting
      ensures waiting.self == |set h | h in pending && pending[h] == PendingSelf|
      ensures waiting.other == |set h | h in pending && pending[h] == PendingOther|
      ensures waiting.untagged == |set h | h in pending && pending[h] == PendingUntagged|
      ensures waiting.unknown == |set h | h in pending && pending[h] == PendingUnknown|
      ensures waiting == Gauge(pending)
    {
      var counts := Counts(0, 0, 0, 0);
      var left := pending.Keys;
      ghost var done: map<string, Reason> := map[];
      while left != {}
        invariant left <= pending.Keys
        invariant done == map h | h in pending && h !in left :: pending[h]
        invariant counts == Gauge(done)
      {
        var h :| h in left;
        GaugeGrows(done, h, pending[h]);
        left, done := left - {h}, done[h := pending[h]];
        counts := counts.Bump(pending[h]);
      }
      assert done == pending;
      waiting := counts;
    }

    method SetPending(host: string, reason: Reason)
      modifies this`pending, this`waiting
      ensures pending == old(pending)[host := reason]
      ensures waiting == Gauge(pending)
    {
      pending := pending[host := reason];
      PublishPending();
    }

    method ClearPending(host: string)
      requires waiting == Gauge(pending)
      modifies this`pending, this`waiting
      ensures pending == old(pending) - {host}
      ensures waiting == Gauge(pending)
    {
      if host !in pending {
        assert pending - {host} == pending;
        return;
      }
      pending := pending - {host};
      PublishPending();
    }

    /** Drops every pending host outside `keep`. */
    method RetainPending(keep: set<string>)
      requires waiting == Gauge(pending)
      modifies this`pending, this`waiting
      ensures forall h :: h in pending <==> h in old(pending) && h in keep
      ensures forall h :: h in pending ==> pending[h] == old(pending)[h]
      ensures pending == Retain(old(pending), keep)
      ensures waiting == Gauge(pending)
    {
      if pending.Keys <= keep {
        assert Retain(pending, keep) == pending;
        return;
      }
      pending := Retain(pending, keep);
      PublishPending();
    }

    // Listing.

    /** Every eligible live route on the listed tunnels; any failed listing fails the whole index. */
    method TunnelIndex(env: Env, op: Op, which: Which) returns (r: Result<Index, ()>)
      requires ValidStore(account.store)
      ensures r.Success? <==> ListsWork(cfg, env, op)
      ensures r.Success? ==> r.value == Selected(cfg, which, account.store, Tunnels(cfg.resolver))
    {
      var index: Index := map[];
      var tunnels := Tunnels(cfg.resolver);
      for i := 0 to |tunnels|
        invariant forall t :: t in tunnels[..i] ==> env(op, t).Works?
        invariant index == Selected(cfg, which, account.store, tunnels[..i])
      {
        assert tunnels[..i + 1] == tunnels[..i] + [tunnels[i]];
        var routes := account.ListTunnel(tunnels[i], env(op, tunnels[i]));
        if routes.Failure? {
          return Failure(());
        }
        index := IndexTunnel(cfg, index, which, routes.value, account.store, tunnels[..i], tunnels[i]);
      }
      assert tunnels[..|tunnels|] == tunnels;
      return Success(index);
    }

    method OwnedRouteIndex(env: Env) returns (r: Result<Index, ()>)
      requires ValidStore(account.store)
      ensures r.Success? <==> ListsWork(cfg, env, ListOwned)
      ensures r.Success? ==> r.value == OwnedIndex(cfg, account.store)
    {
      r := TunnelIndex(env, ListOwned, Own);
    }

    method AdoptionIndex(env: Env) returns (r: Result<Index, ()>)
      requires ValidStore(account.store)
      ensures r.Success? <==> ListsWork(cfg, env, ListAdoption)
      ensures r.Success? ==> r.value == ListedIndex(cfg, account.store)
    {
      r := TunnelIndex(env, ListAdoption, Any);
    }

    method IndexAll(rs: seq<Route>) returns (index: Index)
      requires ValidStore(account.store)
      requires ListingOf(account.store, None, rs)
      ensures index == account.store.live
    {
      index := map[];
      ghost var live := account.store.live;
      for j := 0 to |rs|
        invariant forall h :: h in index <==> h in live && live[h] in rs[..j]
        invariant forall h :: h in index ==> index[h] == live[h]
      {
        assert rs[..j + 1] == rs[..j] + [rs[j]];
        if !rs[j].deleted {
          index := index[Lower(rs[j].hostname) := rs[j]];
        }
      }
      assert rs[..|rs|] == rs;
    }

    /** A failure here yields an empty index: not knowing the holder must not fail the batch. */
    method AccountRouteIndex(env: Env) returns (index: Index)
      requires ValidStore(account.store)
      modifies account`accountLists
      ensures account.accountLists == old(account.accountLists) + 1
      ensures index == AccountIndex(account.store, env)
    {
      var routes := account.ListAll(env(ListAccount, ""));
      if routes.Failure? {
        return map[];
      }
      index := IndexAll(routes.value);
    }

    // Records.

    /** Lists every tunnel in turn; the first failed listing ends it. */
    method ListForRecords(env: Env) returns (r: Result<Tally, ()>, counts: map<string, nat>)
      requires ValidConfig(cfg) && ValidStore(account.store)
      ensures r.Success? <==> ListsWork(cfg, env, ListRecords)
      ensures r.Success? ==> TallyOf(cfg, account.store, Tunnels(cfg.resolver), r.value)
      ensures r.Success? ==> counts == CountsOver(cfg, account.store, Tunnels(cfg.resolver))
    {
      var t := Tally([], {}, []);
      counts := map[];
      var tunnels := Tunnels(cfg.resolver);
      TunnelsDistinct(cfg.resolver);
      ListedNone(cfg, account.store, env);
      for i := 0 to |tunnels|
        invariant ListedPart(cfg, account.store, env, tunnels[..i], t, counts)
      {
        ListedNext(tunnels, i);
        var routes := account.ListTunnel(tunnels[i], env(ListRecords, tunnels[i]));
        if routes.Failure? {
          return Failure(()), counts;
        }
        var n;
        t, n := RecordTunnel(cfg, routes.value, tunnels[i], account.store, tunnels[..i], t);
        CountsGrow(cfg, account.store, tunnels[..i], tunnels[i]);
        counts := counts[tunnels[i] := n];
      }
      assert tunnels[..|tunnels|] == tunnels;
      return Success(t), counts;
    }

    /** Keeps what Records found and marks the snapshot complete. */
    method Remember(t: Tally, counts: map<string, nat>)
      modifies this`recordsHosts, this`ownedHosts, this`recordsOK, this`perTunnel, this`managed, this`outOfFilter
      ensures recordsHosts == Keys(t.out) && ownedHosts == t.owned && recordsOK
      ensures perTunnel == counts && managed == |t.out| && outOfFilter == |t.outside|
    {
      perTunnel, managed, outOfFilter := counts, |t.out|, |t.outside|;
      recordsHosts, ownedHosts, recordsOK := Keys(t.out), t.owned, true;
    }

    /** Lists every tunnel; the snapshot it leaves is complete exactly when every listing worked. */
    method Records(env: Env) returns (r: Result<seq<Endpoint>, ()>)
      requires Valid()
      modifies this`recordsHosts, this`ownedHosts, this`recordsOK, this`perTunnel, this`managed, this`outOfFilter
      modifies this`pending, this`waiting
      ensures Valid()
      ensures r.Success? <==> ListsWork(cfg, env, ListRecords)
      ensures recordsOK == r.Success?
      ensures r.Failure? ==>
        recordsHosts == old(recordsHosts) && ownedHosts == old(ownedHosts) && pending == old(pending)
      ensures r.Success? ==> IsReport(cfg, account.store, r.value)
      ensures r.Success? ==> recordsHosts == Reported(cfg, account.store)
      ensures r.Success? ==> ownedHosts == OwnHosts(cfg, account.store, Tunnels(cfg.resolver))
      ensures r.Success? ==> pending == Retain(old(pending), old(pending).Keys - recordsHosts)
      ensures r.Success? ==> perTunnel == CountsOver(cfg, account.store, Tunnels(cfg.resolver))
      ensures r.Success? ==> managed == |recordsHosts|
      ensures r.Success? ==> SumOver(perTunnel, Tunnels(cfg.resolver)) == managed + outOfFilter
    {
      recordsOK := false;
      var listed, counts := ListForRecords(env);
      if listed.Failure? {
        return Failure(());
      }
      var t := listed.value;
      RecordsTotals(cfg, account.store, t);
      Remember(t, counts);
      RetainPending(pending.Keys - recordsHosts);
      return Success(t.out);
    }

    // ApplyChanges.

    /** The fields and the account show exactly this much progress since the batch began. */
    ghost predicate Mirrors(p: Progress, calls0: seq<Call>, would0: seq<Call>)
      reads this, account
    {
      match p
      case Progress(store, _, waits, log, _) =>
        && account.store == store && pending == waits
        && account.calls == (if cfg.dryRun then calls0 else calls0 + log)
        && would == (if cfg.dryRun then would0 + log else would0)
    }

    /** And the published gauge shows the pending hosts. */
    ghost predicate Published(p: Progress, calls0: seq<Call>, would0: seq<Call>)
      reads this, account
    {
      match p
      case Progress(_, _, _, _, _) => waiting == Gauge(pending) && Mirrors(p, calls0, would0)
    }

    /** Reports a delete, retarget or adoption in dry run, and otherwise makes it. */
    method Attempt(env: Env, c: Call, ghost p0: Progress, ghost calls0: seq<Call>, ghost would0: seq<Call>)
      returns (errs: seq<Problem>, ghost p: Progress)
      requires Mirrors(p0, calls0, would0) && !c.Create?
      modifies this`would, account`store, account`calls
      ensures Mirrors(p, calls0, would0)
      ensures p == Step(cfg, env, p0, Go(c)) && p.errs == p0.errs + errs && p.seen == p0.seen
    {
      StepOther(cfg, env, p0, c);
      p := Step(cfg, env, p0, Go(c));
      errs := [];
      if cfg.dryRun {
        would := would + [c];
      } else {
        var out := account.Send(c, env(CallOp(KindOf(c)), c.host));
        if !out.Done? {
          errs := [CallFailed(c)];
        }
      }
    }

    /** One planned delete, unless the route is gone or not ours. */
    method DeleteHost(env: Env, ep: Endpoint, index: Index, ghost p0: Progress, ghost calls0: seq<Call>,
      ghost would0: seq<Call>)
      returns (errs: seq<Problem>, ghost p: Progress)
      requires Mirrors(p0, calls0, would0)
      modifies this`would, account`store, account`calls
      ensures Mirrors(p, calls0, would0)
      ensures p == Step(cfg, env, p0, DecideDelete(cfg, index, ep)) && p.errs == p0.errs + errs && p.seen == p0.seen
    {
      errs, p := [], p0;
      if !cfg.matches(ep.dns) {
        return;
      }
      if Key(ep) !in index {
        return;
      }
      errs, p := Attempt(env, Delete(Key(ep), index[Key(ep)].id), p0, calls0, would0);
    }

    method ApplyDeletes(env: Env, deletes: seq<Endpoint>, index: Index,
      ghost p0: Progress, ghost calls0: seq<Call>, ghost would0: seq<Call>)
      returns (errs: seq<Problem>, ghost p: Progress)
      requires Mirrors(p0, calls0, would0)
      modifies this`would, account`store, account`calls
      ensures Mirrors(p, calls0, would0)
      ensures p == RunAll(cfg, env, p0, DecideDeletes(cfg, index, deletes)) && p.errs == p0.errs + errs
      ensures p.seen == p0.seen
    {
      errs, p := [], p0;
      ghost var ds := DecideDeletes(cfg, index, deletes);
      CarriedNone(cfg, env, p0, ds);
      for i := 0 to |deletes|
        invariant Mirrors(p, calls0, would0) && Carried(cfg, env, p0, ds, i, p, errs)
      {
        ghost var before := p;
        var failed;
        failed, p := DeleteHost(env, deletes[i], index, p, calls0, would0);
        CarriedNext(cfg, env, p0, ds, i, before, errs, p, failed);
        errs := errs + failed;
      }
      CarriedAll(cfg, env, p0, ds, p, errs);
    }

    /** One planned update: a retarget, unless the route is gone, not ours, or already there. */
    method UpdateHost(env: Env, ep: Endpoint, index: Index, ghost p0: Progress, ghost calls0: seq<Call>,
      ghost would0: seq<Call>)
      returns (errs: seq<Problem>, ghost p: Progress)
      requires Mirrors(p0, calls0, would0)
      modifies this`would, account`store, account`calls
      ensures Mirrors(p, calls0, would0)
      ensures p == Step(cfg, env, p0, DecideUpdate(cfg, index, ep)) && p.errs == p0.errs + errs && p.seen == p0.seen
    {
      errs, p := [], p0;
      if !cfg.matches(ep.dns) {
        return;
      }
      var want := Resolve(cfg.resolver, ep.dns);
      if want.None? {
        return [NoTunnel(Key(ep))], Step(cfg, env, p0, Bad(NoTunnel(Key(ep))));
      }
      if Key(ep) !in index {
        return;
      }
      var r := index[Key(ep)];
      if r.tunnel == want.value {
        return;
      }
      errs, p := Attempt(env, Retarget(Key(ep), r.id, want.value, r.comment), p0, calls0, would0);
    }

    method ApplyUpdates(env: Env, updates: seq<Endpoint>, index: Index,
      ghost p0: Progress, ghost calls0: seq<Call>, ghost would0: seq<Call>)
      returns (errs: seq<Problem>, ghost p: Progress)
      requires Mirrors(p0, calls0, would0)
      modifies this`would, account`store, account`calls
      ensures Mirrors(p, calls0, would0)
      ensures p == RunAll(cfg, env, p0, DecideUpdates(cfg, index, updates)) && p.errs == p0.errs + errs
      ensures p.seen == p0.seen
    {
      errs, p := [], p0;
      ghost var ds := DecideUpdates(cfg, index, updates);
      CarriedNone(cfg, env, p0, ds);
      for i := 0 to |updates|
        invariant Mirrors(p, calls0, would0) && Carried(cfg, env, p0, ds, i, p, errs)
      {
        ghost var before := p;
        var failed;
        failed, p := UpdateHost(env, updates[i], index, p, calls0, would0);
        CarriedNext(cfg, env, p0, ds, i, before, errs, p, failed);
        errs := errs + failed;
      }
      CarriedAll(cfg, env, p0, ds, p, errs);
    }

    /** Claims an untagged route already on the wanted tunnel; refuses anything else that is not ours. */
    method ClaimRoute(env: Env, r: Route, host: string, want: string,
      ghost p0: Progress, ghost calls0: seq<Call>, ghost would0: seq<Call>)
      returns (errs: seq<Problem>, ghost p: Progress)
      requires Mirrors(p0, calls0, would0)
      modifies this`would, account`store, account`calls
      ensures Mirrors(p, calls0, would0)
      ensures p == Step(cfg, env, p0, DecideAdopt(cfg, r, host, want)) && p.errs == p0.errs + errs && p.seen == p0.seen
    {
      if r.tunnel != want {
        return [AdoptRefused(host)], Step(cfg, env, p0, Bad(AdoptRefused(host)));
      }
      var owner := RouteOwner(r.comment);
      if owner == Some(cfg.owner) {
        return [], p0;
      }
      if owner.Some? {
        return [AdoptRefused(host)], Step(cfg, env, p0, Bad(AdoptRefused(host)));
      }
      errs, p := Attempt(env, Adopt(host, r.id, Tag(cfg.owner)), p0, calls0, would0);
    }

    /** Creates a route; a refusal as already routed makes the host pending instead of failed. */
    method PostRoute(env: Env, c: Call, seen0: Option<Index>,
      ghost p0: Progress, ghost calls0: seq<Call>, ghost would0: seq<Call>)
      returns (errs: seq<Problem>, seen: Option<Index>, ghost p: Progress)
      requires waiting == Gauge(pending) && Mirrors(p0, calls0, would0) && seen0 == p0.seen
      requires c.Create? && ValidStore(Step(cfg, env, p0, Go(c)).store)
      modifies this`would, this`pending, this`waiting, account`store, account`calls, account`accountLists
      ensures waiting == Gauge(pending) && Mirrors(p, calls0, would0) && seen == p.seen
      ensures p == Step(cfg, env, p0, Go(c)) && p.errs == p0.errs + errs
      ensures account.accountLists == old(account.accountLists) + if seen0.None? && seen.Some? then 1 else 0
      ensures seen0.Some? ==> seen.Some?
    {
      p := Step(cfg, env, p0, Go(c));
      errs, seen := [], seen0;
      if cfg.dryRun {
        would := would + [c];
        return;
      }
      var out := account.Send(c, env(CallOp(KindOf(c)), c.host));
      match out
      case Done => ClearPending(c.host);
      case Failed => errs := [CallFailed(c)];
      case Conflict =>
        if seen.None? {
          var listed := AccountRouteIndex(env);
          seen := Some(listed);
        }
        SetPending(c.host, Classify(cfg, seen.value, c.host));
    }

    /** One planned create: skipped, claimed or posted. */
    method CreateHost(env: Env, ep: Endpoint, existing: Index, skipped: map<string, Why>, seen0: Option<Index>,
      ghost p0: Progress, ghost calls0: seq<Call>, ghost would0: seq<Call>)
      returns (errs: seq<Problem>, seen: Option<Index>, ghost p: Progress)
      requires waiting == Gauge(pending) && Mirrors(p0, calls0, would0) && seen0 == p0.seen
      requires ValidStore(Step(cfg, env, p0, DecideCreate(cfg, existing, skipped, ep)).store)
      modifies this`would, this`pending, this`waiting, account`store, account`calls, account`accountLists
      ensures waiting == Gauge(pending) && Mirrors(p, calls0, would0) && seen == p.seen
      ensures p == Step(cfg, env, p0, DecideCreate(cfg, existing, skipped, ep)) && p.errs == p0.errs + errs
      ensures account.accountLists == old(account.accountLists) + if seen0.None? && seen.Some? then 1 else 0
      ensures seen0.Some? ==> seen.Some?
    {
      errs, seen, p := [], seen0, p0;
      if !cfg.matches(ep.dns) {
        return;
      }
      if Key(ep) in skipped {
        return;
      }
      var want := Resolve(cfg.resolver, ep.dns);
      if want.None? {
        errs, p := [NoTunnel(Key(ep))], Step(cfg, env, p0, Bad(NoTunnel(Key(ep))));
      } else if Key(ep) in existing {
        errs, p := ClaimRoute(env, existing[Key(ep)], Key(ep), want.value, p0, calls0, would0);
      } else {
        errs, seen, p := PostRoute(env, Create(Key(ep), ep.dns, want.value, Tag(cfg.owner)), seen0, p0, calls0, would0);
      }
    }

    /** The next planned create of a batch. */
    method NextCreate(env: Env, creates: seq<Endpoint>, existing: Index, skipped: map<string, Why>, i: nat,
      seen0: Option<Index>, ghost p0: Progress, ghost p1: Progress, ghost calls0: seq<Call>, ghost would0: seq<Call>)
      returns (errs: seq<Problem>, seen: Option<Index>, ghost p: Progress)
      requires i < |creates| && Published(p1, calls0, would0) && seen0 == p1.seen
      requires ValidStore(p0.store) && AllPinned(p0.store, DecideCreates(cfg, existing, skipped, creates))
      requires p1 == RunAll(cfg, env, p0, DecideCreates(cfg, existing, skipped, creates)[..i])
      modifies this`would, this`pending, this`waiting, account`store, account`calls, account`accountLists
      ensures Published(p, calls0, would0) && seen == p.seen
      ensures p == RunAll(cfg, env, p0, DecideCreates(cfg, existing, skipped, creates)[..i + 1])
      ensures p.errs == p1.errs + errs
      ensures account.accountLists == old(account.accountLists) + if seen0.None? && seen.Some? then 1 else 0
      ensures seen0.Some? ==> seen.Some?
    {
      RunAllNextValid(cfg, env, p0, DecideCreates(cfg, existing, skipped, creates), i);
      errs, seen, p := CreateHost(env, creates[i], existing, skipped, seen0, p1, calls0, would0);
    }

    method ApplyCreates(env: Env, creates: seq<Endpoint>, existing: Index, skipped: map<string, Why>,
      ghost p0: Progress, ghost calls0: seq<Call>, ghost would0: seq<Call>)
      returns (errs: seq<Problem>, ghost p: Progress)
      requires Published(p0, calls0, would0) && p0.seen == None
      requires ValidStore(p0.store) && AllPinned(p0.store, DecideCreates(cfg, existing, skipped, creates))
      modifies this`would, this`pending, this`waiting, account`store, account`calls, account`accountLists
      ensures Published(p, calls0, would0)
      ensures p == RunAll(cfg, env, p0, DecideCreates(cfg, existing, skipped, creates)) && p.errs == p0.errs + errs
      ensures account.accountLists <= old(account.accountLists) + 1
    {
      errs, p := [], p0;
      var seen: Option<Index> := None;
      ghost var ds := DecideCreates(cfg, existing, skipped, creates);
      CreatedNone(cfg, env, p0, ds);
      for i := 0 to |creates|
        invariant Published(p, calls0, would0) && seen == p.seen && Created(cfg, env, p0, ds, i, p, errs)
        invariant account.accountLists == old(account.accountLists) + if seen.Some? then 1 else 0
      {
        ghost var before := p;
        var failed;
        failed, seen, p := NextCreate(env, creates, existing, skipped, i, seen, p0, p, calls0, would0);
        CreatedNext(cfg, env, p0, ds, i, before, errs, p, failed);
        errs := errs + failed;
      }
      CreatedAll(cfg, env, p0, ds, p, errs);
    }

    // The in-cluster leg.

    /** Sorts planned creates into answerable and skipped hosts. */
    method AnswerCreates(creates: seq<Endpoint>) returns (add: Rewrites, skipped: map<string, Why>)
      ensures add == Adds(cfg, creates) && skipped == Skips(cfg, creates)
    {
      add, skipped := map[], map[];
      for i := 0 to |creates|
        invariant add == Adds(cfg, creates[..i]) && skipped == Skips(cfg, creates[..i])
      {
        var ep := creates[i];
        assert creates[..i + 1][..i] == creates[..i];
        if !cfg.matches(ep.dns) {
          continue;
        }
        match Answer(cfg, ep)
        case Failure(why) => skipped := skipped[Key(ep) := why];
        case Success(target) => add := add[Key(ep) := target];
      }
      assert creates[..|creates|] == creates;
    }

    method DeletedHosts(deletes: seq<Endpoint>) returns (remove: seq<string>)
      ensures remove == Removes(cfg, deletes)
    {
      remove := [];
      for i := 0 to |deletes|
        invariant remove == Removes(cfg, deletes[..i])
      {
        assert deletes[..i + 1][..i] == deletes[..i];
        if cfg.matches(deletes[i].dns) {
          remove := remove + [Key(deletes[i])];
        }
      }
      assert deletes[..|deletes|] == deletes;
    }

    /** One edit of the fragment under lower-case names that fit its text. */
    method EditRewrites(env: Env, stage: Stage, add: Rewrites, remove: seq<string>) returns (ok: bool)
      requires LowerEdit(add, remove) && Carriable(add)
      modifies fragment
      ensures var edit := EditFragment(env, stage, old(fragment.View()), add, remove);
        ok == edit.ok && fragment.View() == edit.after
        && fragment.writes == old(fragment.writes) + if edit.wrote then 1 else 0
    {
      ghost var before := fragment.View();
      ParsedCarriable(fragment.Text());
      var r, after := fragment.Apply(add, remove, env(ReadFragment(stage), ""), env(WriteFragment(stage), ""));
      if env(ReadFragment(stage), "").Works? {
        EditIsEdited(before, add, remove, after);
        EditedCarriable(before, add, remove);
      }
      return r.Success?;
    }

    /**
     Writes the in-cluster leg of a batch, each name pointing to its own Service; hosts that cannot be answered
     are returned, not written.
     */
    method ApplyCoreDNS(env: Env, stage: Stage, ch: Changes) returns (r: Result<map<string, Why>, ()>)
      requires Writable(cfg, ch.create)
      modifies this`edits, fragment
      ensures var leg := FragmentLeg(cfg, env, stage, old(fragment.View()), ch);
        r.Success? == leg.ok && fragment.View() == leg.after
        && fragment.writes == old(fragment.writes) + if leg.wrote then 1 else 0
      ensures r.Success? ==> r.value == SkippedFor(cfg, ch)
      ensures edits == old(edits) + FragmentIntent(cfg, ch)
      ensures cfg.dryRun ==> unchanged(fragment)
      ensures r.Success? && cfg.coredns && DistinctKeys(ch.create) ==> SkippedAre(cfg, ch.create, r.value)
      ensures r.Success? && cfg.coredns && !cfg.dryRun && DistinctKeys(ch.create) ==>
        Rewritten(cfg, ch, old(fragment.View()), fragment.View())
    {
      if !cfg.coredns {
        return Success(map[]);
      }
      CoreDNSExact(cfg, env, stage, fragment.View(), ch);
      var add, skipped := AnswerCreates(ch.create);
      var remove := DeletedHosts(ch.delete);
      if add == map[] && remove == [] {
        return Success(skipped);
      }
      edits := edits + [(add, remove)];
      if cfg.dryRun {
        return Success(skipped);
      }
      AddsCarriable(cfg, ch.create);
      RemovesLower(cfg, ch.delete);
      var ok := EditRewrites(env, stage, add, remove);
      return if ok then Success(skipped) else Failure(());
    }

    /** The skipped hosts' problems, in hostname order so the joined error is deterministic. */
    method SkippedErrors(skipped: map<string, Why>) returns (errs: seq<Problem>)
      ensures errs == SkippedProblems(skipped)
    {
      var hosts := SortedElements(skipped.Keys);
      errs := [];
      for i := 0 to |hosts|
        invariant |errs| == i && forall j :: 0 <= j < i ==> errs[j] == Unanswerable(hosts[j], skipped[hosts[j]])
      {
        errs := errs + [Unanswerable(hosts[i], skipped[hosts[i]])];
      }
    }

    /** The first two loops over one batch. */
    method DeletesThenUpdates(env: Env, ch: Changes, index: Index,
      ghost p0: Progress, ghost calls0: seq<Call>, ghost would0: seq<Call>)
      returns (errs: seq<Problem>, ghost p: Progress)
      requires Published(p0, calls0, would0)
      modifies this`would, account`store, account`calls
      ensures Published(p, calls0, would0)
      ensures p == RunAll(cfg, env, RunAll(cfg, env, p0, DecideDeletes(cfg, index, ch.delete)),
                DecideUpdates(cfg, index, ch.update))
      ensures p.seen == p0.seen && p.errs == p0.errs + errs
    {
      var more;
      errs, p := ApplyDeletes(env, ch.delete, index, p0, calls0, would0);
      more, p := ApplyUpdates(env, ch.update, index, p, calls0, would0);
      errs := errs + more;
    }

    /** The three loops over one batch. */
    method CarryOut(env: Env, ch: Changes, index: Index, existing: Index, skipped: map<string, Why>)
      returns (errs: seq<Problem>)
      requires ValidStore(account.store) && waiting == Gauge(pending)
      requires AllPinned(account.store, Decisions(cfg, index, existing, skipped, ch))
      modifies this`would, this`pending, this`waiting, account`store, account`calls, account`accountLists
      ensures var p := RunAll(cfg, env, Progress(old(account.store), SkippedProblems(skipped), old(pending), [], None),
                Decisions(cfg, index, existing, skipped, ch));
        errs == p.errs && Mirrors(p, old(account.calls), old(would))
      ensures waiting == Gauge(pending)
      ensures account.accountLists <= old(account.accountLists) + 1
    {
      errs := SkippedErrors(skipped);
      ghost var p0 := Progress(account.store, errs, pending, [], None);
      ghost var calls0, would0 := account.calls, would;
      BatchInThree(cfg, env, p0, index, existing, skipped, ch);
      var more;
      ghost var p;
      more, p := DeletesThenUpdates(env, ch, index, p0, calls0, would0);
      errs := errs + more;
      more, p := ApplyCreates(env, ch.create, existing, skipped, p, calls0, would0);
      errs := errs + more;
    }

    /** The indexes a batch needs, read before anything is written. */
    method ReadIndexes(env: Env, ch: Changes) returns (r: Result<(Index, Index), ()>)
      requires ValidStore(account.store)
      ensures r.Success? <==> ReadsWork(cfg, env, ch)
      ensures r.Success? ==> r.value == (IndexFor(cfg, account.store, ch), ExistingFor(cfg, account.store, ch))
    {
      var index: Index, existing: Index := map[], map[];
      if NeedsIndex(ch) {
        var listed := OwnedRouteIndex(env);
        if listed.Failure? {
          return Failure(());
        }
        index := listed.value;
      }
      if NeedsExisting(cfg, ch) {
        var listed := AdoptionIndex(env);
        if listed.Failure? {
          return Failure(());
        }
        existing := listed.value;
      }
      return Success((index, existing));
    }

    /** Reads, then the fragment, then the routes; each host fails on its own. */
    method ApplyChanges(env: Env, ch: Changes) returns (errs: seq<Problem>)
      requires Valid() && Writable(cfg, ch.create)
      modifies this`would, this`pending, this`waiting, this`edits, account, fragment
      ensures Valid()
      ensures var a := Apply(cfg, env, old(account.store), old(fragment.View()), old(pending), ch);
        && errs == a.progress.errs && Mirrors(a.progress, old(account.calls), old(would))
        && fragment.View() == a.rewrites && fragment.writes == old(fragment.writes) + if a.wrote then 1 else 0
      ensures edits == old(edits) +
        if IsEmptyPlan(ch) || !ReadsWork(cfg, env, ch) then [] else FragmentIntent(cfg, ch)
      ensures account.accountLists <= old(account.accountLists) + 1
      ensures cfg.dryRun ==> unchanged(fragment)
      ensures AnsweredAs(cfg, ch, errs, old(fragment.View()), fragment.View())
    {
      ApplyExactly(cfg, env, account.store, fragment.View(), pending, ch);
      if IsEmptyPlan(ch) {
        return [];
      }
      var read := ReadIndexes(env, ch);
      if read.Failure? {
        return [ListFailed];
      }
      var skipped := ApplyCoreDNS(env, Applying, ch);
      if skipped.Failure? {
        return [FragmentFailed];
      }
      BatchKeeps(cfg, env, account.store, pending, ch);
      errs := CarryOut(env, ch, read.value.0, read.value.1, skipped.value);
    }

    // AdjustEndpoints.

    method Canonicalize(eps: seq<Endpoint>) returns (out: seq<Endpoint>)
      ensures IsCanonical(cfg, eps, out)
      ensures out == Adjust(cfg, eps)
    {
      AdjustIsCanonical(cfg, eps);
      out := [];
      for i := 0 to |eps|
        invariant out == Adjust(cfg, eps[..i])
      {
        assert eps[..i + 1][..i] == eps[..i];
        if !cfg.matches(eps[i].dns) {
          continue;
        }
        var t := Resolve(cfg.resolver, eps[i].dns);
        if t.None? {
          continue;
        }
        out := out + [Endpoint(eps[i].dns, Target(t.value), eps[i].labels)];
      }
      assert eps[..|eps|] == eps;
    }

    /** Rewrites the in-cluster answers of hosts Records already exposed. */
    method ReconcileExisting(env: Env, desired: seq<Endpoint>) returns (ok: bool)
      requires Writable(cfg, Existing(desired, recordsHosts))
      modifies this`edits, fragment
      ensures var ch := Changes(Existing(desired, recordsHosts), [], []);
        var leg := FragmentLeg(cfg, env, Reconciling, old(fragment.View()), ch);
        && ok == (leg.ok && SkippedFor(cfg, ch) == map[]) && fragment.View() == leg.after
        && fragment.writes == old(fragment.writes) + (if leg.wrote then 1 else 0)
        && edits == old(edits) + FragmentIntent(cfg, ch)
      ensures cfg.dryRun ==> unchanged(fragment)
    {
      if !cfg.coredns {
        return true;
      }
      var create: seq<Endpoint> := [];
      for i := 0 to |desired|
        invariant create == Existing(desired[..i], recordsHosts)
      {
        assert desired[..i + 1][..i] == desired[..i];
        if Key(desired[i]) in recordsHosts && '*' !in Key(desired[i]) {
          create := create + [desired[i]];
        }
      }
      assert desired[..|desired|] == desired;
      if create == [] {
        return true;
      }
      var skipped := ApplyCoreDNS(env, Reconciling, Changes(create, [], []));
      return skipped.Success? && skipped.value == map[];
    }

    /** The entries nothing owns or wants, in order; none at all without a complete view. */
    method StaleEntries(env: Env, desired: set<string>) returns (remove: seq<string>)
      ensures remove == if MayPrune(cfg, env, recordsOK)
        then SortSet(Stale(cfg, fragment.View(), ownedHosts, desired)) else []
      ensures LowerEdit(map[], remove)
    {
      if !cfg.coredns || !cfg.prune || !recordsOK {
        return [];
      }
      var loaded := fragment.Load(env(LookFragment, ""));
      if loaded.Failure? {
        return [];
      }
      ParsedCarriable(fragment.Text());
      StaleLower(cfg, loaded.value, ownedHosts, desired);
      remove := SortedElements(Stale(cfg, loaded.value, ownedHosts, desired));
    }

    /** Removes the stale entries; a failure here never fails the caller. */
    method PruneCoreDNS(env: Env, desired: set<string>)
      modifies this`edits, fragment
      ensures var leg := PruneLeg(cfg, env, old(fragment.View()), recordsOK, ownedHosts, desired);
        && fragment.View() == leg.after
        && fragment.writes == old(fragment.writes) + if leg.wrote then 1 else 0
      ensures edits == old(edits) + PruneIntent(cfg, env, old(fragment.View()), recordsOK, ownedHosts, desired)
      ensures cfg.dryRun ==> unchanged(fragment)
    {
      var remove := StaleEntries(env, desired);
      StaleSortedEmpty(cfg, fragment.View(), ownedHosts, desired);
      if remove == [] {
        return;
      }
      edits := edits + [(map[], remove)];
      if cfg.dryRun {
        return;
      }
      var _ := EditRewrites(env, Pruning, map[], remove);
    }

    /** The repair, and when it worked the prune. */
    method RepairAndPrune(env: Env, desired: seq<Endpoint>) returns (ok: bool)
      requires Writable(cfg, Existing(desired, recordsHosts))
      modifies this`edits, fragment
      ensures var a := RepairPrune(cfg, env, old(fragment.View()), Changes(Existing(desired, recordsHosts), [], []),
                recordsOK, ownedHosts, Keys(desired));
        && ok == a.ok && fragment.View() == a.rewrites
        && edits == old(edits) + a.edits && fragment.writes == old(fragment.writes) + a.writes
      ensures cfg.dryRun ==> unchanged(fragment)
    {
      ghost var change, before := Changes(Existing(desired, recordsHosts), [], []), edits;
      ok := ReconcileExisting(env, desired);
      if ok {
        ghost var more := PruneIntent(cfg, env, fragment.View(), recordsOK, ownedHosts, Keys(desired));
        Concat(before, FragmentIntent(cfg, change), more);
        PruneCoreDNS(env, Keys(desired));
      }
    }

    /** Repairs, and when that worked prunes. The account is not touched. */
    method AdjustEndpoints(env: Env, eps: seq<Endpoint>) returns (r: Result<seq<Endpoint>, ()>)
      requires waiting == Gauge(pending) && Writable(cfg, Repair(cfg, eps, recordsHosts).create)
      modifies this`edits, this`pending, this`waiting, fragment
      ensures waiting == Gauge(pending)
      ensures
        var a := AdjustLeg(cfg, env, old(fragment.View()), old(pending), recordsHosts, recordsOK, ownedHosts, eps);
        && r == (if a.ok then Success(Adjust(cfg, eps)) else Failure(()))
        && fragment.View() == a.rewrites && pending == a.pending
        && edits == old(edits) + a.edits && fragment.writes == old(fragment.writes) + a.writes
      ensures cfg.dryRun ==> unchanged(fragment)
      ensures AdjustedAs(cfg, env, eps, recordsHosts, ownedHosts, recordsOK, r, old(fragment.View()), fragment.View(),
        old(pending), pending)
    {
      ghost var before, waited := fragment.View(), pending;
      var out := Canonicalize(eps);
      RetainPending(Keys(out));
      var ok := RepairAndPrune(env, out);
      r := if ok then Success(out) else Failure(());
      AdjustExactly(cfg, env, before, waited, recordsHosts, recordsOK, ownedHosts, eps);
    }
  }
}
