/**
 What AdjustEndpoints answers and what the in-cluster leg holds, told by the endpoints and the labels given:
 which endpoints are kept, in what form and order, which names are answered and by what, and which are not
 and why.
 */
module Endpoints {
  import opened Wrappers
  import opened Text
  import opened Sorting
  import opened FragmentCodec
  import opened FragmentStore
  import opened Resolver
  import opened Routes
  import opened Reconcile

  // Which endpoints are kept.

  /** In the filter, and with a tunnel. */
  predicate Served(cfg: Config, ep: Endpoint) {
    cfg.matches(ep.dns) && Resolve(cfg.resolver, ep.dns).Some?
  }

  /** The endpoint under its own name and labels, at its tunnel's target. */
  predicate Retargeted(cfg: Config, ep: Endpoint, out: Endpoint)
    requires Served(cfg, ep)
  {
    out == Endpoint(ep.dns, Resolve(cfg.resolver, ep.dns).value + ".cfargotunnel.com", ep.labels)
  }

  /** `out` is the endpoints at these places, in order and each once: exactly those that are served. */
  ghost predicate CanonicalAt(cfg: Config, eps: seq<Endpoint>, out: seq<Endpoint>, at: seq<nat>) {
    && |at| == |out|
    && (forall j :: 0 <= j < |at| ==>
          at[j] < |eps| && Served(cfg, eps[at[j]]) && Retargeted(cfg, eps[at[j]], out[j]))
    && (forall j, k :: 0 <= j < k < |at| ==> at[j] < at[k])
    && (forall i: nat :: i < |eps| && Served(cfg, eps[i]) ==> i in at)
  }

  ghost predicate IsCanonical(cfg: Config, eps: seq<Endpoint>, out: seq<Endpoint>) {
    exists at: seq<nat> :: CanonicalAt(cfg, eps, out, at)
  }

  lemma CanonicalGrows(cfg: Config, eps: seq<Endpoint>, ep: Endpoint, out: seq<Endpoint>, at: seq<nat>)
    requires CanonicalAt(cfg, eps, out, at)
    ensures !Served(cfg, ep) ==> CanonicalAt(cfg, eps + [ep], out, at)
    ensures Served(cfg, ep) ==> CanonicalAt(cfg, eps + [ep],
      out + [Endpoint(ep.dns, Target(Resolve(cfg.resolver, ep.dns).value), ep.labels)], at + [|eps|])
  {
    var all := eps + [ep];
    assert all[|eps|] == ep && forall i :: 0 <= i < |eps| ==> all[i] == eps[i];
    if Served(cfg, ep) {
      var more := at + [|eps|];
      assert more[|at|] == |eps| && forall j :: 0 <= j < |at| ==> more[j] == at[j];
    }
  }

  lemma {:induction false} AdjustAt(cfg: Config, eps: seq<Endpoint>) returns (at: seq<nat>)
    ensures CanonicalAt(cfg, eps, Adjust(cfg, eps), at)
  {
    at := [];
    if eps != [] {
      var front, last := eps[..|eps| - 1], eps[|eps| - 1];
      assert eps == front + [last];
      at := AdjustAt(cfg, front);
      CanonicalGrows(cfg, front, last, Adjust(cfg, front), at);
      if Served(cfg, last) {
        at := at + [|front|];
      }
    }
  }

  /** AdjustEndpoints keeps exactly the endpoints that are served, in order. */
  lemma AdjustIsCanonical(cfg: Config, eps: seq<Endpoint>)
    ensures IsCanonical(cfg, eps, Adjust(cfg, eps))
  {
    var at := AdjustAt(cfg, eps);
  }

  lemma LastPlace(cfg: Config, eps: seq<Endpoint>, out: seq<Endpoint>, at: seq<nat>)
    requires CanonicalAt(cfg, eps, out, at) && eps != [] && Served(cfg, eps[|eps| - 1])
    ensures at != [] && at[|at| - 1] == |eps| - 1
  {
    var k :| 0 <= k < |at| && at[k] == |eps| - 1;
    assert forall j :: 0 <= j < |at| - 1 ==> at[j] < at[|at| - 1];
  }

  lemma CanonicalFront(cfg: Config, eps: seq<Endpoint>, out: seq<Endpoint>, at: seq<nat>, n: nat)
    requires CanonicalAt(cfg, eps, out, at) && eps != [] && n <= |at|
    requires n == if Served(cfg, eps[|eps| - 1]) then |at| - 1 else |at|
    ensures CanonicalAt(cfg, eps[..|eps| - 1], out[..n], at[..n])
  {
    var front, ats := eps[..|eps| - 1], at[..n];
    if Served(cfg, eps[|eps| - 1]) {
      LastPlace(cfg, eps, out, at);
    }
    forall j | 0 <= j < n
      ensures at[j] < |front|
    {
      assert Served(cfg, eps[at[j]]);
      assert n < |at| ==> at[j] < at[n];
    }
    forall i: nat | i < |front| && Served(cfg, front[i])
      ensures i in ats
    {
      assert front[i] == eps[i];
      var k :| 0 <= k < |at| && at[k] == i;
      assert ats[k] == i;
    }
  }

  /** There is one such answer. */
  lemma {:induction false} CanonicalOnce(cfg: Config, eps: seq<Endpoint>, out: seq<Endpoint>, at: seq<nat>)
    requires CanonicalAt(cfg, eps, out, at)
    ensures out == Adjust(cfg, eps)
  {
    if eps != [] {
      var last := eps[|eps| - 1];
      var n := if Served(cfg, last) then |at| - 1 else |at|;
      if Served(cfg, last) {
        LastPlace(cfg, eps, out, at);
        assert out == out[..n] + [out[n]];
      } else {
        assert out[..n] == out;
      }
      CanonicalFront(cfg, eps, out, at, n);
      CanonicalOnce(cfg, eps[..|eps| - 1], out[..n], at[..n]);
    }
  }

  lemma CanonicalIsAdjust(cfg: Config, eps: seq<Endpoint>, out: seq<Endpoint>)
    requires IsCanonical(cfg, eps, out)
    ensures out == Adjust(cfg, eps)
  {
    var at: seq<nat> :| CanonicalAt(cfg, eps, out, at);
    CanonicalOnce(cfg, eps, out, at);
  }

  /** Some endpoint that is served has this name, in whatever letter case. */
  ghost predicate IsAsked(cfg: Config, eps: seq<Endpoint>, h: string) {
    exists i :: 0 <= i < |eps| && Served(cfg, eps[i]) && Lower(eps[i].dns) == h
  }

  /** No two endpoints that are served have one name. */
  ghost predicate AskedOnce(cfg: Config, eps: seq<Endpoint>) {
    forall i, j :: 0 <= i < j < |eps| && Served(cfg, eps[i]) && Served(cfg, eps[j]) ==>
      Lower(eps[i].dns) != Lower(eps[j].dns)
  }

  /** An endpoint that is kept is one given. */
  lemma KeptIsGiven(cfg: Config, eps: seq<Endpoint>, j: nat) returns (i: nat)
    requires j < |Adjust(cfg, eps)|
    ensures i < |eps| && Served(cfg, eps[i]) && Retargeted(cfg, eps[i], Adjust(cfg, eps)[j])
  {
    var at := AdjustAt(cfg, eps);
    i := at[j];
  }

  /** A given one that is served is kept. */
  lemma ServedIsKept(cfg: Config, eps: seq<Endpoint>, i: nat) returns (j: nat)
    requires i < |eps| && Served(cfg, eps[i])
    ensures j < |Adjust(cfg, eps)| && Retargeted(cfg, eps[i], Adjust(cfg, eps)[j])
  {
    var at := AdjustAt(cfg, eps);
    j :| 0 <= j < |at| && at[j] == i;
  }

  lemma KeyIsAsked(cfg: Config, eps: seq<Endpoint>, h: string)
    ensures h in Keys(Adjust(cfg, eps)) <==> IsAsked(cfg, eps, h)
  {
    var out := Adjust(cfg, eps);
    if h in Keys(out) {
      var j: nat :| j < |out| && Key(out[j]) == h;
      var i := KeptIsGiven(cfg, eps, j);
      assert Lower(eps[i].dns) == h;
    }
    if IsAsked(cfg, eps, h) {
      var i: nat :| i < |eps| && Served(cfg, eps[i]) && Lower(eps[i].dns) == h;
      var j := ServedIsKept(cfg, eps, i);
      assert Key(out[j]) == h;
    }
  }

  lemma KeysAreAsked(cfg: Config, eps: seq<Endpoint>)
    ensures forall h :: h in Keys(Adjust(cfg, eps)) <==> IsAsked(cfg, eps, h)
  {
    forall h
      ensures h in Keys(Adjust(cfg, eps)) <==> IsAsked(cfg, eps, h)
    {
      KeyIsAsked(cfg, eps, h);
    }
  }

  lemma AskedOnceDistinct(cfg: Config, eps: seq<Endpoint>)
    requires AskedOnce(cfg, eps)
    ensures DistinctKeys(Adjust(cfg, eps))
  {
    var at := AdjustAt(cfg, eps);
    var out := Adjust(cfg, eps);
    forall j, k | 0 <= j < k < |out|
      ensures Key(out[j]) != Key(out[k])
    {
      assert at[j] < at[k] && Retargeted(cfg, eps[at[j]], out[j]) && Retargeted(cfg, eps[at[k]], out[k]);
    }
  }

  // Which names are answered, and by what.

  /** The endpoint's Service, by its label. */
  predicate ForService(ep: Endpoint, namespace: string, name: string) {
    && "resource" in ep.labels && ep.labels["resource"] == "service" + "/" + namespace + "/" + name
    && namespace != "" && '/' !in namespace && name != ""
  }

  /** The endpoint's Service by its cluster-local name. */
  ghost predicate PointsTo(cfg: Config, ep: Endpoint, target: string) {
    exists namespace, name :: ForService(ep, namespace, name) &&
      target == name + "." + namespace + ".svc." + cfg.clusterDomain
  }

  /** Why an endpoint cannot be answered in the cluster. */
  ghost predicate Unanswered(ep: Endpoint, why: Why) {
    match why
    case Wildcard => '*' in ep.dns
    case NoResourceLabel => '*' !in ep.dns && ("resource" !in ep.labels || ep.labels["resource"] == "")
    case UnsupportedResource =>
      && '*' !in ep.dns && "resource" in ep.labels && ep.labels["resource"] != ""
      && !("service/" <= ep.labels["resource"])
    case MalformedResource =>
      && '*' !in ep.dns && "resource" in ep.labels && "service/" <= ep.labels["resource"]
      && forall namespace, name :: !ForService(ep, namespace, name)
  }

  lemma StarInKey(ep: Endpoint)
    ensures '*' in Key(ep) <==> '*' in ep.dns
  {
    if '*' in Key(ep) {
      var i :| 0 <= i < |ep.dns| && Key(ep)[i] == '*';
      assert ep.dns[i] == '*';
    }
    if '*' in ep.dns {
      var i :| 0 <= i < |ep.dns| && ep.dns[i] == '*';
      assert Key(ep)[i] == LowerChar('*');
    }
  }

  /** A label names a Service by its first part exactly when it begins so. */
  lemma CutService(text: string)
    ensures "service/" <= text <==> Cut(text, '/').Some? && Cut(text, '/').value.0 == "service"
  {
    var cut := Cut(text, '/');
    assert "service/" == "service" + ['/'] && '/' !in "service";
    if "service/" <= text {
      assert text == "service" + ['/'] + text[8..];
      CutUnique(text, '/', "service", text[8..]);
    }
    if cut.Some? && cut.value.0 == "service" {
      assert text == "service/" + cut.value.1;
    }
  }

  lemma ServiceExactly(cfg: Config, ep: Endpoint, target: string)
    requires "resource" in ep.labels
    ensures ServiceTarget(ep.labels["resource"], cfg.clusterDomain) == Success(target) <==> PointsTo(cfg, ep, target)
  {
    ServiceTargetExact(ep.labels["resource"], cfg.clusterDomain, target);
  }

  lemma ServiceFails(cfg: Config, ep: Endpoint)
    requires "resource" in ep.labels
    ensures var r := ServiceTarget(ep.labels["resource"], cfg.clusterDomain);
      && (r == Failure(UnsupportedResource) <==> !("service/" <= ep.labels["resource"]))
      && (r == Failure(MalformedResource) <==>
           "service/" <= ep.labels["resource"] && forall namespace, name :: !ForService(ep, namespace, name))
  {
    var text := ep.labels["resource"];
    var r := ServiceTarget(text, cfg.clusterDomain);
    CutService(text);
    if r.Success? {
      ServiceExactly(cfg, ep, r.value);
    }
    forall namespace, name | ForService(ep, namespace, name)
      ensures r.Success?
    {
      ServiceExactly(cfg, ep, name + "." + namespace + ".svc." + cfg.clusterDomain);
    }
  }

  /** An endpoint is answered by its own Service, or it is not for exactly one reason. */
  lemma AnswerExact(cfg: Config, ep: Endpoint, target: string, why: Why)
    ensures Answer(cfg, ep) == Success(target) <==> '*' !in ep.dns && PointsTo(cfg, ep, target)
    ensures Answer(cfg, ep) == Failure(why) <==> Unanswered(ep, why)
  {
    StarInKey(ep);
    if '*' !in ep.dns && "resource" in ep.labels && ep.labels["resource"] != "" {
      ServiceExactly(cfg, ep, target);
      ServiceFails(cfg, ep);
    }
  }

  /** One of the endpoints, inside the filter, has the name and points to the target. */
  ghost predicate Answers(cfg: Config, eps: seq<Endpoint>, h: string, target: string) {
    exists i :: 0 <= i < |eps| && AnswersFor(cfg, eps[i], h, target)
  }

  ghost predicate AnswersFor(cfg: Config, ep: Endpoint, h: string, target: string) {
    Lower(ep.dns) == h && cfg.matches(ep.dns) && '*' !in ep.dns && PointsTo(cfg, ep, target)
  }

  ghost predicate Skipped(cfg: Config, eps: seq<Endpoint>, h: string, why: Why) {
    exists i :: 0 <= i < |eps| && LeftOut(cfg, eps[i], h, why)
  }

  ghost predicate LeftOut(cfg: Config, ep: Endpoint, h: string, why: Why) {
    Lower(ep.dns) == h && cfg.matches(ep.dns) && Unanswered(ep, why)
  }

  ghost predicate GivesUp(cfg: Config, eps: seq<Endpoint>, h: string) {
    exists i :: 0 <= i < |eps| && cfg.matches(eps[i].dns) && Lower(eps[i].dns) == h
  }

  lemma DistinctFront(eps: seq<Endpoint>)
    requires DistinctKeys(eps) && eps != []
    ensures DistinctKeys(eps[..|eps| - 1])
    ensures forall i :: 0 <= i < |eps| - 1 ==> Lower(eps[i].dns) != Lower(eps[|eps| - 1].dns)
  {
    assert forall i :: 0 <= i < |eps| - 1 ==> Key(eps[i]) != Key(eps[|eps| - 1]);
  }

  lemma AnswersGrow(cfg: Config, eps: seq<Endpoint>, h: string, target: string)
    requires eps != []
    ensures Answers(cfg, eps, h, target) <==>
      Answers(cfg, eps[..|eps| - 1], h, target) || AnswersFor(cfg, eps[|eps| - 1], h, target)
  {
    var front := eps[..|eps| - 1];
    if Answers(cfg, front, h, target) {
      var i :| 0 <= i < |front| && AnswersFor(cfg, front[i], h, target);
      assert eps[i] == front[i];
    }
    if Answers(cfg, eps, h, target) {
      var i :| 0 <= i < |eps| && AnswersFor(cfg, eps[i], h, target);
      assert i < |front| ==> front[i] == eps[i];
    }
  }

  lemma {:induction false} AddsExact(cfg: Config, eps: seq<Endpoint>, h: string, target: string)
    requires DistinctKeys(eps)
    ensures h in Adds(cfg, eps) && Adds(cfg, eps)[h] == target <==> Answers(cfg, eps, h, target)
  {
    if eps != [] {
      var front, last := eps[..|eps| - 1], eps[|eps| - 1];
      DistinctFront(eps);
      AddsExact(cfg, front, h, target);
      AnswersGrow(cfg, eps, h, target);
      AnswerExact(cfg, last, target, Wildcard);
      assert Key(last) == h ==> !Answers(cfg, front, h, target);
      if Key(last) == h && Answer(cfg, last).Success? {
        AnswerExact(cfg, last, Answer(cfg, last).value, Wildcard);
      }
    }
  }

  lemma SkippedGrow(cfg: Config, eps: seq<Endpoint>, h: string, why: Why)
    requires eps != []
    ensures Skipped(cfg, eps, h, why) <==>
      Skipped(cfg, eps[..|eps| - 1], h, why) || LeftOut(cfg, eps[|eps| - 1], h, why)
  {
    var front := eps[..|eps| - 1];
    if Skipped(cfg, front, h, why) {
      var i :| 0 <= i < |front| && LeftOut(cfg, front[i], h, why);
      assert eps[i] == front[i];
    }
    if Skipped(cfg, eps, h, why) {
      var i :| 0 <= i < |eps| && LeftOut(cfg, eps[i], h, why);
      assert i < |front| ==> front[i] == eps[i];
    }
  }

  lemma {:induction false} SkipsExact(cfg: Config, eps: seq<Endpoint>, h: string, why: Why)
    requires DistinctKeys(eps)
    ensures h in Skips(cfg, eps) && Skips(cfg, eps)[h] == why <==> Skipped(cfg, eps, h, why)
  {
    if eps != [] {
      var front, last := eps[..|eps| - 1], eps[|eps| - 1];
      DistinctFront(eps);
      SkipsExact(cfg, front, h, why);
      SkippedGrow(cfg, eps, h, why);
      AnswerExact(cfg, last, "", why);
      assert Key(last) == h ==> !Skipped(cfg, front, h, why);
    }
  }

  lemma {:induction false} RemovesExact(cfg: Config, eps: seq<Endpoint>, h: string)
    ensures h in Removes(cfg, eps) <==> GivesUp(cfg, eps, h)
  {
    if eps != [] {
      var front, last := eps[..|eps| - 1], eps[|eps| - 1];
      RemovesExact(cfg, front, h);
      assert forall i :: 0 <= i < |front| ==> eps[i] == front[i];
      assert GivesUp(cfg, eps, h) <==> GivesUp(cfg, front, h) || (cfg.matches(last.dns) && Lower(last.dns) == h);
    }
  }

  /**
   The fragment after a batch: every planned create that can be answered is, by its own Service; what a planned
   delete gives up is gone; everything else is as it was.
   */
  ghost predicate Rewritten(cfg: Config, ch: Changes, before: Rewrites, after: Rewrites) {
    forall h, target :: h in after && after[h] == target <==>
      || Answers(cfg, ch.create, h, target)
      || (h in before && before[h] == target && !GivesUp(cfg, ch.delete, h) && Unclaimed(cfg, ch.create, h))
  }

  /** No endpoint answers the name. */
  ghost predicate Unclaimed(cfg: Config, eps: seq<Endpoint>, h: string) {
    forall target :: !Answers(cfg, eps, h, target)
  }

  lemma UnclaimedExact(cfg: Config, eps: seq<Endpoint>, h: string)
    requires DistinctKeys(eps)
    ensures Unclaimed(cfg, eps, h) <==> h !in Adds(cfg, eps)
  {
    if h in Adds(cfg, eps) {
      AddsExact(cfg, eps, h, Adds(cfg, eps)[h]);
    }
    forall target
      ensures h !in Adds(cfg, eps) ==> !Answers(cfg, eps, h, target)
    {
      AddsExact(cfg, eps, h, target);
    }
  }

  lemma EditedExact(cfg: Config, ch: Changes, m: Rewrites)
    requires DistinctKeys(ch.create)
    ensures Rewritten(cfg, ch, m, Edited(m, Adds(cfg, ch.create), Removes(cfg, ch.delete)))
  {
    var after := Edited(m, Adds(cfg, ch.create), Removes(cfg, ch.delete));
    forall h, target
      ensures h in after && after[h] == target <==>
        || Answers(cfg, ch.create, h, target)
        || (h in m && m[h] == target && !GivesUp(cfg, ch.delete, h) && Unclaimed(cfg, ch.create, h))
    {
      AddsExact(cfg, ch.create, h, target);
      UnclaimedExact(cfg, ch.create, h);
      RemovesExact(cfg, ch.delete, h);
    }
  }

  lemma LegEdits(cfg: Config, env: Env, stage: Stage, m: Rewrites, ch: Changes)
    requires cfg.coredns && !cfg.dryRun && FragmentLeg(cfg, env, stage, m, ch).ok
    ensures FragmentLeg(cfg, env, stage, m, ch).after == Edited(m, Adds(cfg, ch.create), Removes(cfg, ch.delete))
  {
    assert Edited(m, map[], []) == m;
  }

  /** One successful edit of the in-cluster leg, for the batch it is made for. */
  lemma LegExact(cfg: Config, env: Env, stage: Stage, m: Rewrites, ch: Changes)
    requires cfg.coredns && !cfg.dryRun && DistinctKeys(ch.create) && FragmentLeg(cfg, env, stage, m, ch).ok
    ensures Rewritten(cfg, ch, m, FragmentLeg(cfg, env, stage, m, ch).after)
  {
    LegEdits(cfg, env, stage, m, ch);
    EditedExact(cfg, ch, m);
  }

  /** Which hosts are returned as unanswerable, and why. */
  ghost predicate SkippedAre(cfg: Config, eps: seq<Endpoint>, skipped: map<string, Why>) {
    forall h, why :: h in skipped && skipped[h] == why <==> Skipped(cfg, eps, h, why)
  }

  lemma SkipsAre(cfg: Config, eps: seq<Endpoint>)
    requires DistinctKeys(eps)
    ensures SkippedAre(cfg, eps, Skips(cfg, eps))
  {
    forall h, why
      ensures h in Skips(cfg, eps) && Skips(cfg, eps)[h] == why <==> Skipped(cfg, eps, h, why)
    {
      SkipsExact(cfg, eps, h, why);
    }
  }

  // What AdjustEndpoints leaves in the fragment.

  /** An endpoint that is asked for, of a host Records reported, has the name and points to the target. */
  ghost predicate Repairs(cfg: Config, eps: seq<Endpoint>, hosts: set<string>, h: string, target: string) {
    h in hosts && exists i :: 0 <= i < |eps| && Served(cfg, eps[i]) && AnswersFor(cfg, eps[i], h, target)
  }

  ghost predicate Unrepaired(cfg: Config, eps: seq<Endpoint>, hosts: set<string>, h: string) {
    forall target :: !Repairs(cfg, eps, hosts, h, target)
  }

  /** Nothing owns or wants the name, the instance is configured for it, and prune sees everything and works. */
  ghost predicate PrunedAway(cfg: Config, env: Env, eps: seq<Endpoint>, owned: set<string>, recordsOK: bool,
    h: string)
  {
    && cfg.prune && recordsOK && env(LookFragment, "").Works?
    && env(ReadFragment(Stage.Pruning), "").Works? && !env(WriteFragment(Stage.Pruning), "").Fails?
    && h !in owned && !IsAsked(cfg, eps, h) && cfg.matches(h) && Resolve(cfg.resolver, h).Some?
  }

  /**
   The fragment after AdjustEndpoints: every reported host that is asked for points to its own Service; what
   is stale is gone, if prune saw everything and worked; everything else is as it was.
   */
  ghost predicate Refreshed(cfg: Config, env: Env, eps: seq<Endpoint>, hosts: set<string>, owned: set<string>,
    recordsOK: bool, before: Rewrites, after: Rewrites)
  {
    forall h, target :: h in after && after[h] == target <==>
      || Repairs(cfg, eps, hosts, h, target)
      || (h in before && before[h] == target && Unrepaired(cfg, eps, hosts, h)
          && !PrunedAway(cfg, env, eps, owned, recordsOK, h))
  }

  lemma {:induction false} ExistingAnswers(cfg: Config, eps: seq<Endpoint>, hosts: set<string>, h: string,
    target: string)
    ensures Answers(cfg, Existing(eps, hosts), h, target) <==> h in hosts && Answers(cfg, eps, h, target)
  {
    if eps != [] {
      var front, last := eps[..|eps| - 1], eps[|eps| - 1];
      var kept := Existing(front, hosts);
      ExistingAnswers(cfg, front, hosts, h, target);
      AnswersGrow(cfg, eps, h, target);
      StarInKey(last);
      assert (kept + [last])[..|kept|] == kept;
      AnswersGrow(cfg, kept + [last], h, target);
    }
  }

  lemma KeptAnswers(cfg: Config, eps: seq<Endpoint>, hosts: set<string>, h: string, target: string)
    ensures h in hosts && Answers(cfg, Adjust(cfg, eps), h, target) <==> Repairs(cfg, eps, hosts, h, target)
  {
    var out := Adjust(cfg, eps);
    if Answers(cfg, out, h, target) {
      var j: nat :| j < |out| && AnswersFor(cfg, out[j], h, target);
      var i := KeptIsGiven(cfg, eps, j);
      SameService(cfg, eps[i], out[j], h, target);
    }
    if Repairs(cfg, eps, hosts, h, target) {
      var i: nat :| i < |eps| && Served(cfg, eps[i]) && AnswersFor(cfg, eps[i], h, target);
      var j := ServedIsKept(cfg, eps, i);
      SameService(cfg, eps[i], out[j], h, target);
    }
  }

  lemma SamePoints(cfg: Config, ep: Endpoint, out: Endpoint, target: string)
    requires out.labels == ep.labels
    ensures PointsTo(cfg, out, target) <==> PointsTo(cfg, ep, target)
  {
    forall namespace, name
      ensures ForService(ep, namespace, name) <==> ForService(out, namespace, name)
    {
    }
  }

  /** The form an endpoint is kept in points where it did. */
  lemma SameService(cfg: Config, ep: Endpoint, out: Endpoint, h: string, target: string)
    requires out.dns == ep.dns && out.labels == ep.labels
    ensures AnswersFor(cfg, out, h, target) <==> AnswersFor(cfg, ep, h, target)
  {
    SamePoints(cfg, ep, out, target);
  }

  lemma RepairedExact(cfg: Config, eps: seq<Endpoint>, hosts: set<string>, m: Rewrites, h: string, target: string)
    requires AskedOnce(cfg, eps)
    ensures var after := Edited(m, Adds(cfg, Repair(cfg, eps, hosts).create), []);
      h in after && after[h] == target <==>
        || Repairs(cfg, eps, hosts, h, target)
        || (h in m && m[h] == target && Unrepaired(cfg, eps, hosts, h))
  {
    var create := Repair(cfg, eps, hosts).create;
    AskedOnceDistinct(cfg, eps);
    ExistingAt(Adjust(cfg, eps), hosts);
    forall t
      ensures Answers(cfg, create, h, t) <==> Repairs(cfg, eps, hosts, h, t)
    {
      ExistingAnswers(cfg, Adjust(cfg, eps), hosts, h, t);
      KeptAnswers(cfg, eps, hosts, h, t);
    }
    AddsExact(cfg, create, h, target);
    UnclaimedExact(cfg, create, h);
  }

  lemma StaleExact(cfg: Config, eps: seq<Endpoint>, m: Rewrites, owned: set<string>, h: string)
    ensures h in Stale(cfg, m, owned, Keys(Adjust(cfg, eps))) <==>
      && h in m && h !in owned && !IsAsked(cfg, eps, h) && cfg.matches(h) && Resolve(cfg.resolver, h).Some?
  {
    KeyIsAsked(cfg, eps, h);
  }

  lemma PruneLegIs(cfg: Config, env: Env, m: Rewrites, recordsOK: bool, owned: set<string>, desired: set<string>)
    requires cfg.coredns && !cfg.dryRun
    ensures PruneLeg(cfg, env, m, recordsOK, owned, desired).after ==
      if MayPrune(cfg, env, recordsOK) && env(ReadFragment(Stage.Pruning), "").Works?
        && !env(WriteFragment(Stage.Pruning), "").Fails? then m - Stale(cfg, m, owned, desired) else m
  {
    var gone := Stale(cfg, m, owned, desired);
    EditedRemoval(m, gone);
    if gone == {} {
      assert m - gone == m;
    }
  }

  lemma PruneExact(cfg: Config, env: Env, eps: seq<Endpoint>, m: Rewrites, recordsOK: bool, owned: set<string>,
    h: string)
    requires cfg.coredns && !cfg.dryRun
    ensures var after := PruneLeg(cfg, env, m, recordsOK, owned, Keys(Adjust(cfg, eps))).after;
      && (h in after <==> h in m && !PrunedAway(cfg, env, eps, owned, recordsOK, h))
      && (h in after ==> after[h] == m[h])
  {
    PruneLegIs(cfg, env, m, recordsOK, owned, Keys(Adjust(cfg, eps)));
    StaleExact(cfg, eps, m, owned, h);
  }

  lemma AdjustedIs(cfg: Config, env: Env, m: Rewrites, pending: map<string, Reason>, hosts: set<string>,
    recordsOK: bool, owned: set<string>, eps: seq<Endpoint>)
    requires cfg.coredns && !cfg.dryRun && AdjustLeg(cfg, env, m, pending, hosts, recordsOK, owned, eps).ok
    ensures AdjustLeg(cfg, env, m, pending, hosts, recordsOK, owned, eps).rewrites ==
      PruneLeg(cfg, env, Edited(m, Adds(cfg, Repair(cfg, eps, hosts).create), []), recordsOK, owned,
        Keys(Adjust(cfg, eps))).after
  {
    LegEdits(cfg, env, Reconciling, m, Repair(cfg, eps, hosts));
  }

  lemma RefreshedAt(cfg: Config, env: Env, m: Rewrites, hosts: set<string>, recordsOK: bool, owned: set<string>,
    eps: seq<Endpoint>, h: string, target: string)
    requires cfg.coredns && !cfg.dryRun && AskedOnce(cfg, eps)
    ensures var after := PruneLeg(cfg, env, Edited(m, Adds(cfg, Repair(cfg, eps, hosts).create), []), recordsOK, owned,
        Keys(Adjust(cfg, eps))).after;
      h in after && after[h] == target <==>
        || Repairs(cfg, eps, hosts, h, target)
        || (h in m && m[h] == target && Unrepaired(cfg, eps, hosts, h)
            && !PrunedAway(cfg, env, eps, owned, recordsOK, h))
  {
    RepairedExact(cfg, eps, hosts, m, h, target);
    PruneExact(cfg, env, eps, Edited(m, Adds(cfg, Repair(cfg, eps, hosts).create), []), recordsOK, owned, h);
    if Repairs(cfg, eps, hosts, h, target) {
      assert IsAsked(cfg, eps, h);
    }
  }

  /** A successful AdjustEndpoints, by the endpoints it was given. */
  lemma AdjustExact(cfg: Config, env: Env, m: Rewrites, pending: map<string, Reason>, hosts: set<string>,
    recordsOK: bool, owned: set<string>, eps: seq<Endpoint>)
    requires cfg.coredns && !cfg.dryRun && AskedOnce(cfg, eps)
    requires AdjustLeg(cfg, env, m, pending, hosts, recordsOK, owned, eps).ok
    ensures Refreshed(cfg, env, eps, hosts, owned, recordsOK, m,
      AdjustLeg(cfg, env, m, pending, hosts, recordsOK, owned, eps).rewrites)
  {
    AdjustedIs(cfg, env, m, pending, hosts, recordsOK, owned, eps);
    forall h, target
      ensures var after := AdjustLeg(cfg, env, m, pending, hosts, recordsOK, owned, eps).rewrites;
        h in after && after[h] == target <==>
          || Repairs(cfg, eps, hosts, h, target)
          || (h in m && m[h] == target && Unrepaired(cfg, eps, hosts, h)
              && !PrunedAway(cfg, env, eps, owned, recordsOK, h))
    {
      RefreshedAt(cfg, env, m, hosts, recordsOK, owned, eps, h, target);
    }
  }

  /** Of the hosts that wait, exactly those still asked for. */
  ghost predicate StillAsked(cfg: Config, eps: seq<Endpoint>, before: map<string, Reason>, after: map<string, Reason>) {
    && (forall h :: h in after <==> h in before && IsAsked(cfg, eps, h))
    && (forall h :: h in after ==> after[h] == before[h])
  }

  lemma PendingExact(cfg: Config, eps: seq<Endpoint>, pending: map<string, Reason>)
    ensures StillAsked(cfg, eps, pending, Retain(pending, Keys(Adjust(cfg, eps))))
  {
    KeysAreAsked(cfg, eps);
  }

  /** What can be answered, by some Service. */
  ghost predicate Answerable(cfg: Config, ep: Endpoint) {
    '*' in ep.dns || exists target :: PointsTo(cfg, ep, target)
  }

  lemma {:induction false} NoneSkipped(cfg: Config, eps: seq<Endpoint>)
    requires forall ep :: ep in eps ==> cfg.matches(ep.dns)
    ensures Skips(cfg, eps) == map[] <==> forall ep :: ep in eps ==> Answer(cfg, ep).Success?
  {
    if eps != [] {
      var front, last := eps[..|eps| - 1], eps[|eps| - 1];
      assert eps == front + [last];
      NoneSkipped(cfg, front);
      assert last in eps;
      assert Answer(cfg, last).Failure? ==> Key(last) in Skips(cfg, eps);
      assert forall ep :: ep in eps <==> ep in front || ep == last;
    }
  }

  lemma AnswerableExact(cfg: Config, ep: Endpoint)
    requires '*' !in ep.dns
    ensures Answer(cfg, ep).Success? <==> Answerable(cfg, ep)
  {
    if Answer(cfg, ep).Success? {
      AnswerExact(cfg, ep, Answer(cfg, ep).value, Wildcard);
    }
    forall target | PointsTo(cfg, ep, target)
      ensures Answer(cfg, ep) == Success(target)
    {
      AnswerExact(cfg, ep, target, Wildcard);
    }
  }

  /** Every endpoint that is asked for, of a host Records reported, can be answered. */
  ghost predicate ReportedAnswerable(cfg: Config, eps: seq<Endpoint>, hosts: set<string>) {
    forall i :: 0 <= i < |eps| && Served(cfg, eps[i]) && Lower(eps[i].dns) in hosts ==> Answerable(cfg, eps[i])
  }

  lemma RepairKeeps(cfg: Config, eps: seq<Endpoint>, hosts: set<string>)
    ensures forall ep :: ep in Repair(cfg, eps, hosts).create ==> cfg.matches(ep.dns) && '*' !in ep.dns
  {
    var out := Adjust(cfg, eps);
    ExistingAt(out, hosts);
    forall ep | ep in Repair(cfg, eps, hosts).create
      ensures cfg.matches(ep.dns) && '*' !in ep.dns
    {
      var j: nat :| j < |out| && out[j] == ep;
      var i := KeptIsGiven(cfg, eps, j);
      StarInKey(ep);
    }
  }

  lemma SameAnswerable(cfg: Config, ep: Endpoint, out: Endpoint)
    requires out.dns == ep.dns && out.labels == ep.labels
    ensures Answerable(cfg, out) <==> Answerable(cfg, ep)
  {
    forall target
      ensures PointsTo(cfg, ep, target) <==> PointsTo(cfg, out, target)
    {
      SamePoints(cfg, ep, out, target);
    }
  }

  lemma CreatedIsAnswerable(cfg: Config, eps: seq<Endpoint>, hosts: set<string>, ep: Endpoint)
    requires ReportedAnswerable(cfg, eps, hosts) && ep in Repair(cfg, eps, hosts).create
    ensures Answerable(cfg, ep)
  {
    var out := Adjust(cfg, eps);
    ExistingAt(out, hosts);
    var j: nat :| j < |out| && out[j] == ep;
    var i := KeptIsGiven(cfg, eps, j);
    SameAnswerable(cfg, eps[i], ep);
  }

  lemma ReportedIsAnswerable(cfg: Config, eps: seq<Endpoint>, hosts: set<string>, i: nat)
    requires forall ep :: ep in Repair(cfg, eps, hosts).create ==> Answerable(cfg, ep)
    requires i < |eps| && Served(cfg, eps[i]) && Lower(eps[i].dns) in hosts
    ensures Answerable(cfg, eps[i])
  {
    var out := Adjust(cfg, eps);
    var j := ServedIsKept(cfg, eps, i);
    ExistingAt(out, hosts);
    StarInKey(out[j]);
    assert out[j] in out;
    SameAnswerable(cfg, eps[i], out[j]);
  }

  lemma RepairSkipsNone(cfg: Config, eps: seq<Endpoint>, hosts: set<string>)
    ensures Skips(cfg, Repair(cfg, eps, hosts).create) == map[] <==> ReportedAnswerable(cfg, eps, hosts)
  {
    var create := Repair(cfg, eps, hosts).create;
    RepairKeeps(cfg, eps, hosts);
    NoneSkipped(cfg, create);
    forall ep | ep in create
      ensures Answer(cfg, ep).Success? <==> Answerable(cfg, ep)
      ensures ReportedAnswerable(cfg, eps, hosts) ==> Answerable(cfg, ep)
    {
      AnswerableExact(cfg, ep);
      if ReportedAnswerable(cfg, eps, hosts) {
        CreatedIsAnswerable(cfg, eps, hosts, ep);
      }
    }
    assert ReportedAnswerable(cfg, eps, hosts) ==> forall ep :: ep in create ==> Answer(cfg, ep).Success?;
    if Skips(cfg, create) == map[] {
      assert forall ep :: ep in create ==> Answerable(cfg, ep);
      forall i | 0 <= i < |eps| && Served(cfg, eps[i]) && Lower(eps[i].dns) in hosts
        ensures Answerable(cfg, eps[i])
      {
        ReportedIsAnswerable(cfg, eps, hosts, i);
      }
      assert ReportedAnswerable(cfg, eps, hosts);
    }
  }

  /** AdjustEndpoints succeeds exactly when its repair is carried out and leaves no reported host unanswered. */
  lemma AdjustSucceeds(cfg: Config, env: Env, m: Rewrites, pending: map<string, Reason>, hosts: set<string>,
    recordsOK: bool, owned: set<string>, eps: seq<Endpoint>)
    ensures AdjustLeg(cfg, env, m, pending, hosts, recordsOK, owned, eps).ok <==>
      && FragmentLeg(cfg, env, Reconciling, m, Repair(cfg, eps, hosts)).ok
      && (cfg.coredns ==> ReportedAnswerable(cfg, eps, hosts))
  {
    RepairSkipsNone(cfg, eps, hosts);
  }

  /**
   What AdjustEndpoints answers and leaves behind: the endpoints that are served, in order, the fragment
   refreshed for them, and waiting only hosts that are asked for.
   */
  ghost predicate AdjustedAs(cfg: Config, env: Env, eps: seq<Endpoint>, hosts: set<string>, owned: set<string>,
    recordsOK: bool, r: Result<seq<Endpoint>, ()>, before: Rewrites, after: Rewrites, waited: map<string, Reason>,
    waits: map<string, Reason>)
  {
    match r
    case Failure(_) => StillAsked(cfg, eps, waited, waits)
    case Success(out) =>
      && IsCanonical(cfg, eps, out) && StillAsked(cfg, eps, waited, waits)
      && (cfg.coredns ==> ReportedAnswerable(cfg, eps, hosts))
      && (cfg.coredns && !cfg.dryRun && AskedOnce(cfg, eps) ==>
           Refreshed(cfg, env, eps, hosts, owned, recordsOK, before, after))
  }

  lemma AdjustExactly(cfg: Config, env: Env, m: Rewrites, pending: map<string, Reason>, hosts: set<string>,
    recordsOK: bool, owned: set<string>, eps: seq<Endpoint>)
    ensures var a := AdjustLeg(cfg, env, m, pending, hosts, recordsOK, owned, eps);
      AdjustedAs(cfg, env, eps, hosts, owned, recordsOK, if a.ok then Success(Adjust(cfg, eps)) else Failure(()), m,
        a.rewrites, pending, a.pending)
  {
    PendingExact(cfg, eps, pending);
    AdjustIsCanonical(cfg, eps);
    AdjustSucceeds(cfg, env, m, pending, hosts, recordsOK, owned, eps);
    var a := AdjustLeg(cfg, env, m, pending, hosts, recordsOK, owned, eps);
    if a.ok && cfg.coredns && !cfg.dryRun && AskedOnce(cfg, eps) {
      AdjustExact(cfg, env, m, pending, hosts, recordsOK, owned, eps);
    }
  }

  // ApplyChanges.

  /** The batch ended before its calls: a listing or the fragment's write failed. */
  predicate CutShort(errs: seq<Problem>) {
    ListFailed in errs || FragmentFailed in errs
  }

  /** The hosts reported as unanswerable are those that are, each for its reason. */
  ghost predicate ReportsUnanswered(cfg: Config, eps: seq<Endpoint>, errs: seq<Problem>) {
    forall h, why :: Unanswerable(h, why) in errs <==> Skipped(cfg, eps, h, why)
  }

  /**
   What ApplyChanges does for the in-cluster leg, unless it is cut short: every planned create is answered by its
   own Service or reported with the reason it is not, what a planned delete gives up is gone, and the rest is
   as it was.
   */
  ghost predicate AnsweredAs(cfg: Config, ch: Changes, errs: seq<Problem>, before: Rewrites, after: Rewrites) {
    match ch
    case Changes(create, _, _) =>
      cfg.coredns && DistinctKeys(create) && !CutShort(errs) ==>
        && ReportsUnanswered(cfg, create, errs)
        && (!cfg.dryRun ==> Rewritten(cfg, ch, before, after))
  }

  lemma SkippedProblemsAre(skipped: map<string, Why>, h: string, why: Why)
    ensures Unanswerable(h, why) in SkippedProblems(skipped) <==> h in skipped && skipped[h] == why
  {
    var hosts := SortSet(skipped.Keys);
    SortSetElements(skipped.Keys);
    if h in skipped {
      var i :| 0 <= i < |hosts| && hosts[i] == h;
      assert SkippedProblems(skipped)[i] == Unanswerable(h, skipped[h]);
    }
  }

  ghost predicate NoUnanswerable(ds: seq<Decision>) {
    forall d :: d in ds && d.Bad? ==> !d.problem.Unanswerable?
  }

  lemma {:induction false} RunAllUnanswerable(cfg: Config, env: Env, p: Progress, ds: seq<Decision>, h: string,
    why: Why)
    requires NoUnanswerable(ds)
    ensures Unanswerable(h, why) in RunAll(cfg, env, p, ds).errs <==> Unanswerable(h, why) in p.errs
    decreases |ds|
  {
    if ds != [] {
      RunAllUnanswerable(cfg, env, Step(cfg, env, p, ds[0]), ds[1..], h, why);
    }
  }

  lemma DecisionsAnswerable(cfg: Config, index: Index, existing: Index, skipped: map<string, Why>, ch: Changes)
    ensures NoUnanswerable(Decisions(cfg, index, existing, skipped, ch))
  {
  }

  lemma BatchReports(cfg: Config, env: Env, s: Store, pending: map<string, Reason>, ch: Changes)
    requires cfg.coredns && DistinctKeys(ch.create)
    ensures ReportsUnanswered(cfg, ch.create,
      RunAll(cfg, env, Begun(cfg, s, pending, ch), DecisionsFor(cfg, s, ch)).errs)
  {
    SkipsAre(cfg, ch.create);
    DecisionsAnswerable(cfg, IndexFor(cfg, s, ch), ExistingFor(cfg, s, ch), SkippedFor(cfg, ch), ch);
    forall h, why
      ensures Unanswerable(h, why) in RunAll(cfg, env, Begun(cfg, s, pending, ch), DecisionsFor(cfg, s, ch)).errs <==>
        Skipped(cfg, ch.create, h, why)
    {
      SkippedProblemsAre(SkippedFor(cfg, ch), h, why);
      RunAllUnanswerable(cfg, env, Begun(cfg, s, pending, ch), DecisionsFor(cfg, s, ch), h, why);
    }
  }

  lemma ApplyExactly(cfg: Config, env: Env, s: Store, m: Rewrites, pending: map<string, Reason>, ch: Changes)
    ensures var a := Apply(cfg, env, s, m, pending, ch); AnsweredAs(cfg, ch, a.progress.errs, m, a.rewrites)
  {
    var a := Apply(cfg, env, s, m, pending, ch);
    if cfg.coredns && DistinctKeys(ch.create) {
      if IsEmptyPlan(ch) {
        EmptyBatch(cfg, ch, m);
      } else if ReadsWork(cfg, env, ch) && FragmentLeg(cfg, env, Applying, m, ch).ok {
        BatchReports(cfg, env, s, pending, ch);
        if !cfg.dryRun {
          LegExact(cfg, env, Applying, m, ch);
        }
      } else {
        assert CutShort(a.progress.errs);
      }
    }
  }

  lemma EmptyBatch(cfg: Config, ch: Changes, m: Rewrites)
    requires IsEmptyPlan(ch)
    ensures ReportsUnanswered(cfg, ch.create, []) && Rewritten(cfg, ch, m, m)
  {
  }
}
