/**
 The planner's contract under the sync policy can be kept: the plain difference between what is
 desired and what Records reported meets it, whatever was read.
 */
module Planner {
  import opened Text
  import opened Sorting
  import opened Resolver
  import opened Routes
  import opened Reconcile
  import opened PerHost
  import opened ProviderEngine
  import opened Stabilise

  /** The endpoints that pass the test, in order. */
  function Where(eps: seq<Endpoint>, keep: Endpoint -> bool): seq<Endpoint> {
    if eps == [] then []
    else
      var front, last := Where(eps[..|eps| - 1], keep), eps[|eps| - 1];
      if keep(last) then front + [last] else front
  }

  lemma {:induction false} WhereKeeps(eps: seq<Endpoint>, keep: Endpoint -> bool)
    ensures forall ep :: ep in Where(eps, keep) <==> ep in eps && keep(ep)
    ensures DistinctKeys(eps) ==> DistinctKeys(Where(eps, keep))
  {
    if eps != [] {
      var front, last := eps[..|eps| - 1], eps[|eps| - 1];
      WhereKeeps(front, keep);
      assert eps == front + [last];
      if DistinctKeys(eps) {
        assert forall i :: 0 <= i < |front| ==> Key(front[i]) == Key(eps[i]) != Key(last);
        assert forall ep :: ep in Where(front, keep) ==> Key(ep) != Key(last);
        KeysAre(Where(front, keep));
        KeysAppend(Where(front, keep), last);
      }
    }
  }

  function Named(seen: Index, hosts: seq<string>): seq<Endpoint>
    requires forall h :: h in hosts ==> h in seen
  {
    seq(|hosts|, i requires 0 <= i < |hosts| => Endpoint(hosts[i], Target(seen[hosts[i]].tunnel), map[]))
  }

  function ReportedOf(cfg: Config, seen: Index): set<string> {
    set h | h in seen && cfg.matches(h)
  }

  /** The hosts reported and not desired, in order. */
  ghost function Unwanted(cfg: Config, seen: Index, desired: seq<Endpoint>): (hosts: seq<string>)
    ensures forall h :: h in hosts <==> InReport(cfg, seen, h) && h !in Keys(desired)
    ensures Distinct(hosts)
  {
    var gone := ReportedOf(cfg, seen) - Keys(desired);
    SortSetElements(gone);
    SortSetDistinct(gone);
    SortSet(gone)
  }

  lemma SortSetDistinct(s: set<string>)
    ensures Distinct(SortSet(s))
  {
    var xs := SortSet(s);
    forall i, j | 0 <= i < j < |xs|
      ensures xs[i] != xs[j]
    {
      assert xs == xs[..i] + [xs[i]] + xs[i + 1..j] + [xs[j]] + xs[j + 1..];
      assert multiset(xs)[xs[i]] <= 1;
    }
  }

  predicate Moved(cfg: Config, seen: Index, ep: Endpoint) {
    InReport(cfg, seen, Key(ep)) && Target(seen[Key(ep)].tunnel) != ep.target
  }

  /** Create what is missing, delete what is unwanted, update what has another target. */
  ghost function Planned(cfg: Config, seen: Index, desired: seq<Endpoint>): Changes {
    Changes(
      Where(desired, ep => !InReport(cfg, seen, Key(ep))),
      Named(seen, Unwanted(cfg, seen, desired)),
      Where(desired, ep => Moved(cfg, seen, ep)))
  }

  /** An index is keyed by lower-case hostname. */
  predicate LowerKeyed(seen: Index) {
    forall h :: h in seen ==> Lower(h) == h
  }

  lemma PartsApart(a: seq<Endpoint>, b: seq<Endpoint>, c: seq<Endpoint>)
    requires DistinctKeys(a) && DistinctKeys(b) && DistinctKeys(c)
    requires Keys(a) !! Keys(b) && Keys(a) !! Keys(c) && Keys(b) !! Keys(c)
    ensures OneChangeEach(Changes(c, a, b))
  {
    var all := a + b + c;
    forall i, j | 0 <= i < j < |all|
      ensures Key(all[i]) != Key(all[j])
    {
      assert forall k :: 0 <= k < |a| ==> all[k] == a[k] && Key(all[k]) in Keys(a);
      assert forall k :: |a| <= k < |a| + |b| ==> all[k] == b[k - |a|] && Key(all[k]) in Keys(b);
      assert forall k :: |a| + |b| <= k < |all| ==> all[k] == c[k - |a| - |b|] && Key(all[k]) in Keys(c);
    }
  }

  lemma NamedKeys(seen: Index, hosts: seq<string>)
    requires LowerKeyed(seen) && Distinct(hosts) && forall h :: h in hosts ==> h in seen
    ensures DistinctKeys(Named(seen, hosts)) && forall h :: HasKey(Named(seen, hosts), h) <==> h in hosts
  {
    var eps := Named(seen, hosts);
    assert forall i :: 0 <= i < |eps| ==> Key(eps[i]) == hosts[i];
  }

  /** What each part of the difference names. */
  lemma PlannedKeys(cfg: Config, seen: Index, desired: seq<Endpoint>)
    requires LowerKeyed(seen) && DistinctKeys(desired)
    ensures var ch := Planned(cfg, seen, desired);
      && DistinctKeys(ch.create) && DistinctKeys(ch.delete) && DistinctKeys(ch.update)
      && (forall ep :: ep in ch.create <==> ep in desired && !InReport(cfg, seen, Key(ep)))
      && (forall ep :: ep in ch.update <==> ep in desired && Moved(cfg, seen, ep))
      && (forall h :: HasKey(ch.delete, h) <==> InReport(cfg, seen, h) && !HasKey(desired, h))
  {
    WhereKeeps(desired, ep => !InReport(cfg, seen, Key(ep)));
    WhereKeeps(desired, ep => Moved(cfg, seen, ep));
    NamedKeys(seen, Unwanted(cfg, seen, desired));
    KeysAre(desired);
  }

  lemma CreatesAre(cfg: Config, seen: Index, desired: seq<Endpoint>, creates: seq<Endpoint>)
    requires forall ep :: ep in creates <==> ep in desired && !InReport(cfg, seen, Key(ep))
    ensures forall h :: HasKey(creates, h) <==> HasKey(desired, h) && !InReport(cfg, seen, h)
  {
    forall h
      ensures HasKey(creates, h) <==> HasKey(desired, h) && !InReport(cfg, seen, h)
    {
      if HasKey(creates, h) {
        var i :| 0 <= i < |creates| && Key(creates[i]) == h;
        assert creates[i] in creates;
      }
      if HasKey(desired, h) && !InReport(cfg, seen, h) {
        var i :| 0 <= i < |desired| && Key(desired[i]) == h;
        assert desired[i] in creates;
      }
    }
  }

  lemma UpdatesAre(cfg: Config, seen: Index, desired: seq<Endpoint>, updates: seq<Endpoint>)
    requires forall ep :: ep in updates <==> ep in desired && Moved(cfg, seen, ep)
    ensures forall h :: HasKey(updates, h) ==> HasKey(desired, h) && InReport(cfg, seen, h)
    ensures forall ep :: ep in desired && Moved(cfg, seen, ep) ==> HasKey(updates, Key(ep))
  {
    forall h | HasKey(updates, h)
      ensures HasKey(desired, h) && InReport(cfg, seen, h)
    {
      var i :| 0 <= i < |updates| && Key(updates[i]) == h;
      assert updates[i] in updates;
    }
    KeysAre(updates);
  }

  /** The difference is a plan. */
  lemma DifferenceIsPlan(cfg: Config, seen: Index, desired: seq<Endpoint>)
    requires LowerKeyed(seen) && DistinctKeys(desired)
    ensures IsPlanOf(cfg, seen, desired, Planned(cfg, seen, desired))
  {
    var ch := Planned(cfg, seen, desired);
    PlannedKeys(cfg, seen, desired);
    CreatesAre(cfg, seen, desired, ch.create);
    UpdatesAre(cfg, seen, desired, ch.update);
    KeysAre(ch.create);
    KeysAre(ch.delete);
    KeysAre(ch.update);
    PartsApart(ch.delete, ch.update, ch.create);
  }
}
