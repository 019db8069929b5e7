/**
 The one-shot prune command: it lists the scopes it was given, keeps the live routes with exactly the
 owner's tag inside the filter, and with --apply deletes each of them once.
 */
module PruneCommand {
  import opened Wrappers
  import opened Text
  import opened Sorting
  import opened Routes
  import opened AccountApi

  datatype Exit = PruneOK | PruneUsageError | PruneFailed

  /** The k-th listing, and the delete of each route. */
  datatype PruneCall = ListScope(k: nat) | DeleteOf(id: nat)

  type PruneNet = PruneCall -> Reply

  /** A blank tunnel id is the whole account. */
  function ScopeOf(tid: string): Option<string> {
    if tid == "" then None else Some(tid)
  }

  function ScopesOf(tunnels: seq<string>): seq<string> {
    if tunnels == [] then [""] else tunnels
  }

  predicate Wanted(owner: string, matches: string -> bool, r: Route) {
    !r.deleted && RouteOwner(r.comment) == Some(owner) && matches(r.hostname)
  }

  predicate IsLive(s: Store, r: Route) {
    Lower(r.hostname) in s.live && s.live[Lower(r.hostname)] == r
  }

  predicate InScopes(scopes: seq<string>, r: Route) {
    exists i :: 0 <= i < |scopes| && InScope(ScopeOf(scopes[i]), r)
  }

  /** What the command is to delete. */
  predicate IsTarget(s: Store, owner: string, matches: string -> bool, scopes: seq<string>, r: Route) {
    IsLive(s, r) && Wanted(owner, matches, r) && InScopes(scopes, r)
  }

  ghost predicate OneEachId(rs: seq<Route>) {
    forall i, j :: 0 <= i < j < |rs| ==> rs[i].id != rs[j].id
  }

  /** Exactly the targets, each once. */
  ghost predicate Targets(s: Store, owner: string, matches: string -> bool, scopes: seq<string>, found: seq<Route>) {
    OneEachId(found) && forall r :: r in found <==> IsTarget(s, owner, matches, scopes, r)
  }

  /** The targets of some scopes, and of part of one more listing. */
  ghost predicate TargetsPart(s: Store, owner: string, matches: string -> bool, scopes: seq<string>, rs: seq<Route>,
    found: seq<Route>, seen: set<nat>)
  {
    && OneEachId(found)
    && (forall r :: r in found <==> IsTarget(s, owner, matches, scopes, r) || (r in rs && Wanted(owner, matches, r)))
    && (forall id :: id in seen <==> exists i :: 0 <= i < |found| && found[i].id == id)
  }

  lemma SeenIsFound(s: Store, owner: string, matches: string -> bool, scopes: seq<string>, rs: seq<Route>,
    found: seq<Route>, seen: set<nat>, r: Route)
    requires ValidStore(s) && TargetsPart(s, owner, matches, scopes, rs, found, seen) && IsLive(s, r)
    requires forall x :: x in rs && !x.deleted ==> IsLive(s, x)
    ensures r.id in seen <==> r in found
  {
    if r.id in seen {
      var i :| 0 <= i < |found| && found[i].id == r.id;
      assert found[i] in found && IsLive(s, found[i]);
    } else {
      assert forall i :: 0 <= i < |found| ==> found[i].id != r.id;
    }
  }

  lemma FoundGrows(s: Store, owner: string, matches: string -> bool, scopes: seq<string>, rs: seq<Route>,
    found: seq<Route>, seen: set<nat>, r: Route)
    requires ValidStore(s) && TargetsPart(s, owner, matches, scopes, rs, found, seen) && (!r.deleted ==> IsLive(s, r))
    requires forall x :: x in rs && !x.deleted ==> IsLive(s, x)
    ensures !Wanted(owner, matches, r) || r.id in seen ==>
      TargetsPart(s, owner, matches, scopes, rs + [r], found, seen)
    ensures Wanted(owner, matches, r) && r.id !in seen ==>
      TargetsPart(s, owner, matches, scopes, rs + [r], found + [r], seen + {r.id})
  {
    if Wanted(owner, matches, r) {
      SeenIsFound(s, owner, matches, scopes, rs, found, seen, r);
      if r.id !in seen {
        SeenAppend(found, seen, r);
      }
    }
  }

  lemma SeenAppend(found: seq<Route>, seen: set<nat>, r: Route)
    requires forall id :: id in seen <==> exists i :: 0 <= i < |found| && found[i].id == id
    ensures forall id :: id in seen + {r.id} <==> exists i :: 0 <= i < |found + [r]| && (found + [r])[i].id == id
  {
    forall id
      ensures id in seen + {r.id} <==> exists i :: 0 <= i < |found + [r]| && (found + [r])[i].id == id
    {
      assert (found + [r])[|found|] == r;
      if id in seen {
        var i :| 0 <= i < |found| && found[i].id == id;
        assert (found + [r])[i].id == id;
      }
    }
  }

  lemma ScopeDone(s: Store, owner: string, matches: string -> bool, scopes: seq<string>, k: nat, rs: seq<Route>,
    r: Route)
    requires ValidStore(s) && k < |scopes| && ListingOf(s, ScopeOf(scopes[k]), rs)
    ensures IsTarget(s, owner, matches, scopes[..k + 1], r) <==>
      IsTarget(s, owner, matches, scopes[..k], r) || (r in rs && Wanted(owner, matches, r))
  {
    assert scopes[..k + 1] == scopes[..k] + [scopes[k]];
    assert InScopes(scopes[..k + 1], r) <==> InScopes(scopes[..k], r) || InScope(ScopeOf(scopes[k]), r) by {
      if InScopes(scopes[..k], r) {
        var i :| 0 <= i < k && InScope(ScopeOf(scopes[..k][i]), r);
        assert scopes[..k + 1][i] == scopes[..k][i];
      }
      assert scopes[..k + 1][k] == scopes[k];
    }
    if r in rs && !r.deleted {
      var i :| 0 <= i < |rs| && rs[i] == r;
      assert Listed(s, ScopeOf(scopes[k]), r);
    }
  }

  lemma ListedIsLive(s: Store, scope: Option<string>, rs: seq<Route>)
    requires ListingOf(s, scope, rs)
    ensures forall x :: x in rs && !x.deleted ==> IsLive(s, x)
  {
    forall x | x in rs && !x.deleted
      ensures IsLive(s, x)
    {
      var i :| 0 <= i < |rs| && rs[i] == x;
      assert Listed(s, scope, x);
    }
  }

  // In hostname order, then by id.

  predicate RouteLeq(a: Route, b: Route) {
    if a.hostname == b.hostname then a.id <= b.id else StringLeq(a.hostname, b.hostname)
  }

  lemma RouteOrder()
    ensures TotalPreorder(RouteLeq)
  {
    forall a, b
      ensures RouteLeq(a, b) || RouteLeq(b, a)
    {
      StringLeqTotal(a.hostname, b.hostname);
    }
    forall a, b, c | RouteLeq(a, b) && RouteLeq(b, c)
      ensures RouteLeq(a, c)
    {
      if a.hostname != b.hostname && b.hostname != c.hostname {
        StringLeqTransitive(a.hostname, b.hostname, c.hostname);
        if a.hostname == c.hostname {
          StringLeqAntisymmetric(a.hostname, b.hostname);
        }
      }
    }
  }

  lemma SortedTargets(s: Store, owner: string, matches: string -> bool, scopes: seq<string>, found: seq<Route>,
    sorted: seq<Route>)
    requires Targets(s, owner, matches, scopes, found) && multiset(sorted) == multiset(found)
    ensures Targets(s, owner, matches, scopes, sorted)
  {
    assert forall r :: r in sorted <==> r in multiset(sorted);
    assert forall r :: r in found <==> r in multiset(found);
    forall i, j | 0 <= i < j < |sorted|
      ensures sorted[i].id != sorted[j].id
    {
      SameElementTwice(s, owner, matches, scopes, found, sorted, i, j);
    }
  }

  lemma OnceInBag(rs: seq<Route>, r: Route)
    requires OneEachId(rs)
    ensures multiset(rs)[r] <= 1
  {
    if rs != [] {
      var front, last := rs[..|rs| - 1], rs[|rs| - 1];
      assert rs == front + [last];
      OnceInBag(front, r);
      if last == r {
        assert r !in front;
      }
    }
  }

  lemma SameElementTwice(s: Store, owner: string, matches: string -> bool, scopes: seq<string>, found: seq<Route>,
    sorted: seq<Route>, i: nat, j: nat)
    requires Targets(s, owner, matches, scopes, found) && multiset(sorted) == multiset(found) && i < j < |sorted|
    ensures sorted[i].id != sorted[j].id
  {
    var a, b := sorted[i], sorted[j];
    assert a in multiset(sorted) && b in multiset(sorted);
    if a == b {
      OnceInBag(found, a);
      TwiceInBag(sorted, i, j);
    } else {
      var p :| 0 <= p < |found| && found[p] == a;
      var q :| 0 <= q < |found| && found[q] == b;
    }
  }

  lemma TwiceInBag(rs: seq<Route>, i: nat, j: nat)
    requires i < j < |rs| && rs[i] == rs[j]
    ensures multiset(rs)[rs[i]] >= 2
  {
    assert rs == rs[..j] + [rs[j]] + rs[j + 1..];
    assert rs[i] == rs[..j][i];
    assert rs[i] in multiset(rs[..j]);
  }

  // Deleting.

  /** The delete took effect, whether or not its answer arrived. */
  predicate Landed(net: PruneNet, r: Route) {
    !net(DeleteOf(r.id)).Fails?
  }

  /** What is left once these routes have been attempted. */
  ghost predicate Remains(s: Store, net: PruneNet, gone: seq<Route>, s': Store) {
    forall h ::
      && (h in s'.live <==> h in s.live && !(s.live[h] in gone && Landed(net, s.live[h])))
      && (h in s'.live ==> s'.live[h] == s.live[h])
  }

  function Deletes(rs: seq<Route>): (cs: seq<Call>)
    ensures |cs| == |rs| && forall i :: 0 <= i < |rs| ==> cs[i] == Delete(Lower(rs[i].hostname), rs[i].id)
  {
    seq(|rs|, i requires 0 <= i < |rs| => Delete(Lower(rs[i].hostname), rs[i].id))
  }

  function Failures(net: PruneNet, rs: seq<Route>): nat {
    if rs == [] then 0
    else Failures(net, rs[..|rs| - 1]) + if net(DeleteOf(rs[|rs| - 1].id)).Works? then 0 else 1
  }

  lemma {:induction false} NoFailures(net: PruneNet, rs: seq<Route>)
    ensures Failures(net, rs) == 0 <==> forall r :: r in rs ==> net(DeleteOf(r.id)).Works?
  {
    if rs != [] {
      assert rs == rs[..|rs| - 1] + [rs[|rs| - 1]];
      NoFailures(net, rs[..|rs| - 1]);
    }
  }

  lemma DeleteOne(s: Store, net: PruneNet, all: seq<Route>, i: nat, now: Store)
    requires ValidStore(s) && ValidStore(now) && i < |all| && OneEachId(all)
    requires (forall r :: r in all ==> IsLive(s, r)) && Remains(s, net, all[..i], now)
    ensures var c := Delete(Lower(all[i].hostname), all[i].id);
      var (after, out) := Perform(now, c, net(DeleteOf(all[i].id)));
      && ValidStore(after) && Remains(s, net, all[..i + 1], after) && (out.Done? <==> net(DeleteOf(all[i].id)).Works?)
  {
    var r, h := all[i], Lower(all[i].hostname);
    var c, reply := Delete(h, r.id), net(DeleteOf(r.id));
    assert r in all;
    assert all[..i + 1] == all[..i] + [r];
    assert r !in all[..i];
    assert h in now.live && now.live[h] == r;
    PerformAtHost(now, c, reply);
    PerformLocal(now, c, reply);
  }

  method DeleteAll(account: Account, found: seq<Route>, net: PruneNet) returns (failures: nat)
    requires ValidStore(account.store) && OneEachId(found) && forall r :: r in found ==> IsLive(account.store, r)
    modifies account`store, account`calls
    ensures failures == Failures(net, found) && ValidStore(account.store)
    ensures Remains(old(account.store), net, found, account.store)
    ensures account.calls == old(account.calls) + Deletes(found)
  {
    failures := 0;
    for i := 0 to |found|
      invariant ValidStore(account.store) && Remains(old(account.store), net, found[..i], account.store)
      invariant failures == Failures(net, found[..i])
      invariant account.calls == old(account.calls) + Deletes(found)[..i]
    {
      DeleteOne(old(account.store), net, found, i, account.store);
      assert found[..i + 1][..i] == found[..i];
      var out := account.Send(Delete(Lower(found[i].hostname), found[i].id), net(DeleteOf(found[i].id)));
      if !out.Done? {
        failures := failures + 1;
      }
    }
    assert found[..|found|] == found && Deletes(found)[..|found|] == Deletes(found);
  }

  // The command.

  /** Adds one listing's routes to what has been found, skipping ids already seen. */
  method Sift(rs: seq<Route>, owner: string, matches: string -> bool, found0: seq<Route>, seen0: set<nat>,
    ghost s: Store, ghost scopes: seq<string>) returns (found: seq<Route>, seen: set<nat>)
    requires ValidStore(s) && TargetsPart(s, owner, matches, scopes, [], found0, seen0)
    requires forall x :: x in rs && !x.deleted ==> IsLive(s, x)
    ensures TargetsPart(s, owner, matches, scopes, rs, found, seen)
  {
    found, seen := found0, seen0;
    for j := 0 to |rs|
      invariant TargetsPart(s, owner, matches, scopes, rs[..j], found, seen)
    {
      assert rs[..j + 1] == rs[..j] + [rs[j]];
      FoundGrows(s, owner, matches, scopes, rs[..j], found, seen, rs[j]);
      if !Wanted(owner, matches, rs[j]) {
        continue;
      }
      if rs[j].id in seen {
        continue;
      }
      seen, found := seen + {rs[j].id}, found + [rs[j]];
    }
    assert rs[..|rs|] == rs;
  }

  method ListIn(account: Account, scope: Option<string>, reply: Reply) returns (r: Result<seq<Route>, ()>)
    requires ValidStore(account.store)
    modifies account`accountLists
    ensures r.Success? <==> reply.Works?
    ensures r.Success? ==> ListingOf(account.store, scope, r.value)
  {
    if scope.None? {
      r := account.ListAll(reply);
    } else {
      r := account.ListTunnel(scope.value, reply);
    }
  }

  lemma NextScope(s: Store, owner: string, matches: string -> bool, scopes: seq<string>, k: nat, rs: seq<Route>,
    found: seq<Route>, seen: set<nat>)
    requires ValidStore(s) && k < |scopes| && ListingOf(s, ScopeOf(scopes[k]), rs)
    requires TargetsPart(s, owner, matches, scopes[..k], rs, found, seen)
    ensures TargetsPart(s, owner, matches, scopes[..k + 1], [], found, seen)
  {
    forall r
      ensures r in found <==> IsTarget(s, owner, matches, scopes[..k + 1], r)
    {
      ScopeDone(s, owner, matches, scopes, k, rs, r);
    }
  }

  /** Lists every scope in turn; a failed listing ends the command before anything is deleted. */
  method FindTargets(account: Account, owner: string, matches: string -> bool, scopes: seq<string>, net: PruneNet)
    returns (r: Result<seq<Route>, ()>)
    requires ValidStore(account.store)
    modifies account`accountLists
    ensures r.Success? <==> forall k :: 0 <= k < |scopes| ==> net(ListScope(k)).Works?
    ensures r.Success? ==> Targets(account.store, owner, matches, scopes, r.value)
  {
    var found: seq<Route>, seen: set<nat> := [], {};
    for k := 0 to |scopes|
      invariant forall j :: 0 <= j < k ==> net(ListScope(j)).Works?
      invariant TargetsPart(account.store, owner, matches, scopes[..k], [], found, seen)
    {
      var routes := ListIn(account, ScopeOf(scopes[k]), net(ListScope(k)));
      if routes.Failure? {
        return Failure(());
      }
      ListedIsLive(account.store, ScopeOf(scopes[k]), routes.value);
      found, seen := Sift(routes.value, owner, matches, found, seen, account.store, scopes[..k]);
      NextScope(account.store, owner, matches, scopes, k, routes.value, found, seen);
    }
    assert scopes[..|scopes|] == scopes;
    return Success(found);
  }

  /**
   What the command line asks to delete, by the text of each route: live, the owner's tag and no other
   comment, in the filter, and on one of the tunnels given, if any are; a blank one stands for all.
   */
  ghost predicate AskedToDelete(s: Store, owner: string, tunnels: seq<string>, matches: string -> bool, r: Route) {
    && Lower(r.hostname) in s.live && s.live[Lower(r.hostname)] == r && matches(r.hostname)
    && TrimSpace(r.comment) == "managed-by=external-dns/" + TrimSpace(owner)
    && (tunnels != [] && "" !in tunnels ==> r.tunnel in tunnels)
  }

  lemma ScopesByTunnels(tunnels: seq<string>, r: Route)
    ensures InScopes(ScopesOf(tunnels), r) <==> (tunnels != [] && "" !in tunnels ==> r.tunnel in tunnels)
  {
    if tunnels == [] {
      assert InScope(ScopeOf(ScopesOf(tunnels)[0]), r);
    }
    if "" in tunnels {
      var i :| 0 <= i < |tunnels| && tunnels[i] == "";
      assert InScope(ScopeOf(ScopesOf(tunnels)[i]), r);
    }
    if r.tunnel in tunnels {
      var i :| 0 <= i < |tunnels| && tunnels[i] == r.tunnel;
      assert InScope(ScopeOf(ScopesOf(tunnels)[i]), r);
    }
  }

  lemma TargetsAreAsked(s: Store, owner: string, tunnels: seq<string>, matches: string -> bool, found: seq<Route>)
    requires ValidStore(s) && TrimSpace(owner) != ""
    requires Targets(s, TrimSpace(owner), matches, ScopesOf(tunnels), found)
    ensures forall r :: r in found <==> AskedToDelete(s, owner, tunnels, matches, r)
  {
    forall r
      ensures r in found <==> AskedToDelete(s, owner, tunnels, matches, r)
    {
      ScopesByTunnels(tunnels, r);
      OwnerExact(r.comment, TrimSpace(owner));
    }
  }

  /** What the command does with the account: the routes it has found, deleted as far as their deletes land. */
  ghost predicate Pruned(s: Store, net: PruneNet, found: seq<Route>, before: seq<Call>, s': Store, after: seq<Call>) {
    && (forall h :: h in s'.live <==> h in s.live && !(s.live[h] in found && !net(DeleteOf(s.live[h].id)).Fails?))
    && (forall h :: h in s'.live ==> s'.live[h] == s.live[h])
    && |after| == |before| + |found| && before <= after
    && (forall i :: 0 <= i < |found| ==> after[|before| + i] == Delete(Lower(found[i].hostname), found[i].id))
  }

  lemma PrunedBy(s: Store, net: PruneNet, found: seq<Route>, before: seq<Call>, s': Store)
    requires Remains(s, net, found, s')
    ensures Pruned(s, net, found, before, s', before + Deletes(found))
  {
  }

  lemma PrunedNothing(s: Store, net: PruneNet, calls: seq<Call>)
    ensures Pruned(s, net, [], calls, s, calls)
  {
  }

  /**
   With --apply exactly the routes asked for are attempted, each once and in hostname order, and those whose
   delete landed are gone; the command succeeds exactly when nothing failed. A failed listing, like a dry run,
   deletes nothing.
   */
  method RunPrune(account: Account, owner: string, tunnels: seq<string>, matches: string -> bool, apply: bool,
    configured: bool, net: PruneNet) returns (exit: Exit, found: seq<Route>)
    requires ValidStore(account.store)
    modifies account
    ensures ValidStore(account.store)
    ensures exit == PruneUsageError <==> TrimSpace(owner) == "" || !configured
    ensures var usable := TrimSpace(owner) != "" && configured;
      var listed := forall k :: 0 <= k < (if tunnels == [] then 1 else |tunnels|) ==> net(ListScope(k)).Works?;
      && (usable && listed ==>
           && OneEachId(found) && SortedBy(RouteLeq, found)
           && (forall r :: r in found <==> AskedToDelete(old(account.store), owner, tunnels, matches, r)))
      && (exit == PruneOK <==>
            usable && listed && (!apply || forall r :: r in found ==> net(DeleteOf(r.id)).Works?))
      && (usable && listed && apply ==>
           Pruned(old(account.store), net, found, old(account.calls), account.store, account.calls))
      && (!usable || !listed || !apply ==> account.store == old(account.store) && account.calls == old(account.calls))
  {
    found := [];
    var ownerID := TrimSpace(owner);
    if ownerID == "" || !configured {
      return PruneUsageError, found;
    }
    var scopes := ScopesOf(tunnels);
    var listed := FindTargets(account, ownerID, matches, scopes, net);
    if listed.Failure? {
      return PruneFailed, found;
    }
    RouteOrder();
    found := Sort(RouteLeq, listed.value);
    SortedTargets(account.store, ownerID, matches, scopes, listed.value, found);
    TargetsAreAsked(account.store, owner, tunnels, matches, found);
    if found == [] {
      PrunedNothing(account.store, net, account.calls);
      return PruneOK, found;
    }
    if !apply {
      return PruneOK, found;
    }
    var failures := DeleteAll(account, found, net);
    NoFailures(net, found);
    PrunedBy(old(account.store), net, found, old(account.calls), account.store);
    return if failures > 0 then PruneFailed else PruneOK, found;
  }
}
