/**
 What a request of a known client does, told by the client's policy, the ids and the names alone: which route
 is gone, changed or new afterwards, what every other route is, and what the client is answered.
 */
module BrokerEffects {
  import opened Wrappers
  import opened Text
  import opened Domains
  import opened Routes
  import opened Policy
  import opened PolicyParse
  import opened UpstreamApi
  import opened Broker
  import opened BrokerViews
  import opened BrokerIsolation

  // What a policy lets through, as it is written.

  predicate OnOwnTunnel(client: ClientPolicy, tunnel: string) {
    Lower(TrimSpace(tunnel)) in client.tunnels
  }

  /** The hostname stands for a name, no wildcard in it, whose last labels are one of the client's suffixes. */
  ghost predicate UnderOwnSuffix(client: ClientPolicy, hostname: string) {
    exists from, to, h, i :: NameIn(Lower(TrimSpace(hostname)), from, to, h) && h != "" && '*' !in h
      && 0 <= i < |client.suffixes| && LabelSuffix(Labels(h), Labels(client.suffixes[i]))
  }

  /** A client with an owner writes that owner's tag and nothing else. */
  predicate TaggedAs(client: ClientPolicy, comment: string) {
    client.owner.None? || TrimSpace(comment) == "managed-by=external-dns/" + client.owner.value
  }

  /** The client's own route, under a name it may manage. */
  ghost predicate IsOwn(client: ClientPolicy, r: Route) {
    OnOwnTunnel(client, r.tunnel) && UnderOwnSuffix(client, r.hostname)
  }

  /** A create that names a tunnel of the client's, a name it may manage, and its tag if it has an owner. */
  ghost predicate Creatable(client: ClientPolicy, b: Body) {
    && b.tunnel.Str? && OnOwnTunnel(client, b.tunnel.s)
    && b.hostname.Str? && UnderOwnSuffix(client, b.hostname.s)
    && !b.comment.NotAString? && (b.comment.Str? ==> TaggedAs(client, b.comment.s))
    && (client.owner.Some? ==> b.comment.Str?)
  }

  /** A patch whose every given field is one the client may give. */
  ghost predicate Patchable(client: ClientPolicy, b: Body) {
    && (!b.tunnel.Undefined? ==> b.tunnel.Str? && OnOwnTunnel(client, b.tunnel.s))
    && (!b.hostname.Undefined? ==> b.hostname.Str? && UnderOwnSuffix(client, b.hostname.s))
    && !b.comment.NotAString? && (b.comment.Str? ==> TaggedAs(client, b.comment.s))
  }

  lemma SuffixExactly(client: ClientPolicy, hostname: string)
    ensures HostnameAllowed(client, Str(hostname)) <==> UnderOwnSuffix(client, hostname)
  {
    NormalStands(hostname);
    AllowedByLabels(client, hostname, NormalizeHostname(hostname));
    forall from, to, h | NameIn(Lower(TrimSpace(hostname)), from, to, h)
      ensures h == NormalizeHostname(hostname)
    {
      NormalizeExact(hostname, h);
    }
  }

  lemma CommentExactly(client: ClientPolicy, v: Value, required: bool)
    ensures CommentAllowed(client, v, required) <==>
      && !v.NotAString? && (v.Str? ==> TaggedAs(client, v.s)) && (required && client.owner.Some? ==> v.Str?)
  {
    if v.Str? && client.owner.Some? {
      AllowedCommentIsOwn(client, v.s, required);
    }
  }

  lemma OwnExactly(client: ClientPolicy, r: Route)
    ensures Visible(client, r) <==> IsOwn(client, r)
  {
    SuffixExactly(client, r.hostname);
  }

  lemma CreatableExactly(client: ClientPolicy, b: Body)
    ensures MayCreate(client, b) <==> Creatable(client, b)
  {
    CommentExactly(client, b.comment, true);
    if b.hostname.Str? {
      SuffixExactly(client, b.hostname.s);
    }
  }

  lemma PatchableExactly(client: ClientPolicy, b: Body)
    ensures MayPatch(client, b) <==> Patchable(client, b)
  {
    CommentExactly(client, b.comment, false);
    if b.hostname.Str? {
      SuffixExactly(client, b.hostname.s);
    }
  }

  // Looking up.

  /** The id finds this route, and it is the client's own. */
  ghost predicate OwnAt(client: ClientPolicy, t: Table, id: Option<nat>, i: nat) {
    i < |t.routes| && id == Some(t.routes[i].id) && IsOwn(client, t.routes[i])
  }

  lemma LookedUp(client: ClientPolicy, t: Table, id: Option<nat>, net: Net)
    requires ValidTable(t)
    ensures id.Some? && !net(GetCall).Works? ==> OwnRoute(client, t, id, net) == Failure(UpstreamFailed)
    ensures id.None? || (net(GetCall).Works? && forall i: nat :: !OwnAt(client, t, id, i)) ==>
      OwnRoute(client, t, id, net) == Failure(NotFound)
    ensures forall i: nat :: OwnAt(client, t, id, i) && net(GetCall).Works? ==>
      OwnRoute(client, t, id, net).Success? && Find(t.routes, id.value) == Some(i)
  {
    if id.Some? && Find(t.routes, id.value).Some? {
      var k := Find(t.routes, id.value).value;
      OwnExactly(client, t.routes[k]);
      assert OwnAt(client, t, id, k) <==> IsOwn(client, t.routes[k]);
      forall i: nat | OwnAt(client, t, id, i)
        ensures i == k
      {
      }
    }
  }

  // Delete.

  /** Without the route at i, every other where it was. */
  ghost predicate Gone(t: Table, i: nat, t': Table)
    requires i < |t.routes|
  {
    && t'.next == t.next && |t'.routes| == |t.routes| - 1
    && (forall j :: 0 <= j < i ==> t'.routes[j] == t.routes[j])
    && (forall j :: i <= j < |t'.routes| ==> t'.routes[j] == t.routes[j + 1])
  }

  lemma DeletedAt(t: Table, i: nat, net: Net)
    requires ValidTable(t) && i < |t.routes| && Find(t.routes, t.routes[i].id) == Some(i)
    ensures var (t', resp) := DeleteStep(t, t.routes[i].id, net);
      match net(ChangeCall)
      case Works => Gone(t, i, t') && resp == Deleted(t.routes[i].id)
      case Lost => Gone(t, i, t') && resp == UpstreamFailed
      case Fails => t' == t && resp == UpstreamFailed
  {
  }

  lemma GoneById(t: Table, i: nat, t': Table)
    requires ValidTable(t) && i < |t.routes| && Gone(t, i, t')
    ensures forall r :: r in t'.routes <==> r in t.routes && r.id != t.routes[i].id
  {
    forall r
      ensures r in t'.routes <==> r in t.routes && r.id != t.routes[i].id
    {
      if r in t'.routes {
        var j :| 0 <= j < |t'.routes| && t'.routes[j] == r;
        assert t.routes[if j < i then j else j + 1] == r;
      }
      if r in t.routes && r.id != t.routes[i].id {
        var j :| 0 <= j < |t.routes| && t.routes[j] == r;
        assert t'.routes[if j < i then j else j - 1] == r;
      }
    }
  }

  /**
   A delete of the client's own route: once the call takes effect no route has its id, every other is where it
   was, and the client is told so when the answer arrives.
   */
  lemma DeleteEffect(policy: Clients, t: Table, c: string, id: Option<nat>, size: nat, net: Net, draw: nat, i: nat)
    requires ValidTable(t) && c in policy && OwnAt(policy[c], t, id, i) && net(GetCall).Works?
    ensures var (t', resp) := Handle(policy, t, Some(c), DeleteRoute(id), size, net, draw);
      && (net(ChangeCall).Fails? ==> t' == t && resp == UpstreamFailed)
      && (!net(ChangeCall).Fails? ==> Gone(t, i, t') && resp == if net(ChangeCall).Works? then Deleted(id.value)
           else UpstreamFailed)
      && (!net(ChangeCall).Fails? ==> forall r :: r in t'.routes <==> r in t.routes && r.id != id.value)
  {
    LookedUp(policy[c], t, id, net);
    DeletedAt(t, i, net);
    var t' := Handle(policy, t, Some(c), DeleteRoute(id), size, net, draw).0;
    if Gone(t, i, t') {
      GoneById(t, i, t');
    }
  }

  /** Every other delete changes nothing. */
  lemma DeleteRefused(policy: Clients, t: Table, c: string, id: Option<nat>, size: nat, net: Net, draw: nat)
    requires ValidTable(t) && c in policy && (net(GetCall).Works? ==> forall i: nat :: !OwnAt(policy[c], t, id, i))
    ensures Handle(policy, t, Some(c), DeleteRoute(id), size, net, draw) ==
      (t, if id.None? || net(GetCall).Works? then NotFound else UpstreamFailed)
  {
    LookedUp(policy[c], t, id, net);
  }

  // Patch.

  /** A name as the account keeps it: without a wildcard label in front. */
  ghost predicate KeptAs(hostname: string, name: string) {
    hostname == "*." + name || (hostname == name && !("*." <= name))
  }

  lemma KeptAsStored(hostname: string)
    ensures forall name :: KeptAs(hostname, name) <==> name == StoredName(hostname)
  {
    if "*." <= hostname {
      assert hostname == "*." + hostname[2..];
    }
    assert forall name :: hostname == "*." + name ==> hostname[2..] == name;
  }

  /** The route with the given fields in place of its own; what is not given stays, a null comment is cleared. */
  ghost predicate PatchedTo(r: Route, b: Body, r': Route) {
    && r'.id == r.id && r'.deleted == r.deleted
    && (if b.hostname.Str? then KeptAs(b.hostname.s, r'.hostname) else r'.hostname == r.hostname)
    && r'.tunnel == (if b.tunnel.Str? then b.tunnel.s else r.tunnel)
    && r'.comment == (match b.comment case Str(s) => s case Null => "" case _ => r.comment)
  }

  /** Another route has the name. */
  ghost predicate TakenByOther(t: Table, i: nat, name: string) {
    exists j :: 0 <= j < |t.routes| && j != i && t.routes[j].hostname == name
  }

  /** The route at i is this one now, and every other is as it was. */
  ghost predicate ChangedAt(t: Table, i: nat, r: Route, t': Table)
    requires i < |t.routes|
  {
    && t'.next == t.next && |t'.routes| == |t.routes| && t'.routes[i] == r
    && forall j :: 0 <= j < |t.routes| && j != i ==> t'.routes[j] == t.routes[j]
  }

  lemma PatchedIsEdited(r: Route, b: Body, r': Route)
    requires !b.comment.NotAString?
    ensures PatchedTo(r, b, r') <==> r' == Edited(r, EditOf(b))
  {
    if b.hostname.Str? {
      KeptAsStored(b.hostname.s);
    }
  }

  lemma PatchedAt(client: ClientPolicy, t: Table, i: nat, b: Body, net: Net, r: Route)
    requires ValidTable(t) && i < |t.routes| && Find(t.routes, t.routes[i].id) == Some(i)
    requires MayPatch(client, b) && PatchedTo(t.routes[i], b, r)
    ensures var (t', resp) := PatchStep(client, t, t.routes[i].id, b, net);
      && (net(ChangeCall).Fails? || TakenByOther(t, i, r.hostname) ==> t' == t)
      && (!net(ChangeCall).Fails? && !TakenByOther(t, i, r.hostname) ==> ChangedAt(t, i, r, t'))
      && resp == (if !net(ChangeCall).Works? then UpstreamFailed
                  else if TakenByOther(t, i, r.hostname) then AlreadyRouted else Stored(r))
  {
    PatchedIsEdited(t.routes[i], b, r);
    assert TakenByOther(t, i, r.hostname) <==> !Renamable(t.routes, i, r.hostname);
  }

  /**
   A patch of the client's own route with fields it may give: once the call takes effect the route has the
   given fields and keeps the rest, and no other route changes; unless another route has the name, which is
   what the client is told.
   */
  lemma PatchEffect(policy: Clients, t: Table, c: string, id: Option<nat>, b: Body, size: nat, net: Net, draw: nat,
    i: nat, r: Route)
    requires ValidTable(t) && c in policy && OwnAt(policy[c], t, id, i) && net(GetCall).Works?
    requires Patchable(policy[c], b) && PatchedTo(t.routes[i], b, r)
    ensures var (t', resp) := Handle(policy, t, Some(c), PatchRoute(id, Some(b)), size, net, draw);
      && (net(ChangeCall).Fails? || TakenByOther(t, i, r.hostname) ==> t' == t)
      && (!net(ChangeCall).Fails? && !TakenByOther(t, i, r.hostname) ==> ChangedAt(t, i, r, t'))
      && resp == (if !net(ChangeCall).Works? then UpstreamFailed
                  else if TakenByOther(t, i, r.hostname) then AlreadyRouted else Stored(r))
  {
    LookedUp(policy[c], t, id, net);
    PatchableExactly(policy[c], b);
    PatchedAt(policy[c], t, i, b, net, r);
  }

  /** Every other patch changes nothing. */
  lemma PatchRefused(policy: Clients, t: Table, c: string, id: Option<nat>, body: Option<Body>, size: nat, net: Net,
    draw: nat)
    requires ValidTable(t) && c in policy
    requires body.Some? && net(GetCall).Works? && (exists i: nat :: OwnAt(policy[c], t, id, i)) ==>
      !Patchable(policy[c], body.value)
    ensures Handle(policy, t, Some(c), PatchRoute(id, body), size, net, draw) ==
      (t, if body.None? then BadRequest
          else if id.Some? && !net(GetCall).Works? then UpstreamFailed
          else if exists i: nat :: OwnAt(policy[c], t, id, i) then Denied else NotFound)
  {
    LookedUp(policy[c], t, id, net);
    if body.Some? {
      PatchableExactly(policy[c], body.value);
    }
  }

  // Create.

  /** The route a create asks for, under the id it draws. */
  ghost predicate AskedFor(b: Body, draw: nat, r: Route)
    requires b.hostname.Str? && b.tunnel.Str?
  {
    && r.id == draw && !r.deleted && KeptAs(b.hostname.s, r.hostname) && r.tunnel == b.tunnel.s
    && r.comment == if b.comment.Str? then b.comment.s else ""
  }

  ghost predicate Taken(t: Table, name: string) {
    exists j :: 0 <= j < |t.routes| && t.routes[j].hostname == name
  }

  /** One new route behind all that were there. */
  ghost predicate AddedOne(t: Table, r: Route, t': Table) {
    t'.routes == t.routes + [r] && t'.next == r.id + 1
  }

  lemma CreatedAt(client: ClientPolicy, t: Table, b: Body, net: Net, draw: nat, r: Route)
    requires MayCreate(client, b) && AskedFor(b, draw, r)
    ensures var (t', resp) := CreateStep(client, t, Some(b), net, draw);
      && (net(ChangeCall).Fails? || Taken(t, r.hostname) ==> t' == t)
      && (!net(ChangeCall).Fails? && !Taken(t, r.hostname) ==> AddedOne(t, r, t'))
      && resp == (if !net(ChangeCall).Works? then UpstreamFailed
                  else if Taken(t, r.hostname) then AlreadyRouted else Stored(r))
  {
    KeptAsStored(b.hostname.s);
    assert r == Route(draw, StoredName(b.hostname.s), b.tunnel.s, CommentOf(b.comment), false);
    assert Taken(t, r.hostname) <==> Held(t.routes, r.hostname);
  }

  /**
   A create the client may make: once the call takes effect there is one new route, with the given name,
   tunnel and comment, and every other is as it was; unless the name is taken, which is what it is told.
   */
  lemma CreateEffect(policy: Clients, t: Table, c: string, b: Body, size: nat, net: Net, draw: nat, r: Route)
    requires c in policy && Creatable(policy[c], b) && AskedFor(b, draw, r)
    ensures var (t', resp) := Handle(policy, t, Some(c), CreateRoute(Some(b)), size, net, draw);
      && (net(ChangeCall).Fails? || Taken(t, r.hostname) ==> t' == t)
      && (!net(ChangeCall).Fails? && !Taken(t, r.hostname) ==> AddedOne(t, r, t'))
      && resp == (if !net(ChangeCall).Works? then UpstreamFailed
                  else if Taken(t, r.hostname) then AlreadyRouted else Stored(r))
  {
    CreatableExactly(policy[c], b);
    CreatedAt(policy[c], t, b, net, draw, r);
  }

  /** Every other create changes nothing. */
  lemma CreateRefused(policy: Clients, t: Table, c: string, body: Option<Body>, size: nat, net: Net, draw: nat)
    requires c in policy && (body.Some? ==> !Creatable(policy[c], body.value))
    ensures Handle(policy, t, Some(c), CreateRoute(body), size, net, draw) ==
      (t, if body.None? then BadRequest else Denied)
  {
    if body.Some? {
      CreatableExactly(policy[c], body.value);
    }
  }

  /** Whoever is not a known client changes nothing and is told so; nor does another method do anything. */
  lemma StrangersRefused(policy: Clients, t: Table, who: Option<string>, req: Request, size: nat, net: Net, draw: nat)
    requires who.None? || who.value !in policy || req.OtherMethod?
    ensures Handle(policy, t, who, req, size, net, draw) ==
      (t, if who.None? then Unauthenticated else if who.value !in policy then NotPermitted else MethodNotAllowed)
  {
  }

  // From the document to the account.

  /** What a request may leave on a route: the owner's tag, no comment, or the one that was there. */
  ghost predicate TagOrBefore(owner: string, t: Table, r: Route) {
    || TrimSpace(r.comment) == "managed-by=external-dns/" + owner || r.comment == ""
    || exists j :: 0 <= j < |t.routes| && t.routes[j].id == r.id && t.routes[j].comment == r.comment
  }

  lemma CreateAdmits(client: ClientPolicy, t: Table, body: Option<Body>, net: Net, draw: nat, r: Route)
    requires client.owner.Some? && r in CreateStep(client, t, body, net, draw).0.routes
    ensures TagOrBefore(client.owner.value, t, r)
  {
    if r in t.routes {
      var j :| 0 <= j < |t.routes| && t.routes[j] == r;
    } else {
      CreatableExactly(client, body.value);
    }
  }

  lemma PatchAdmits(client: ClientPolicy, t: Table, id: nat, b: Body, net: Net, r: Route)
    requires client.owner.Some? && r in PatchStep(client, t, id, b, net).0.routes
    ensures TagOrBefore(client.owner.value, t, r)
  {
    var rs := PatchStep(client, t, id, b, net).0.routes;
    var j :| 0 <= j < |rs| && rs[j] == r;
    if r == t.routes[j] {
      assert t.routes[j].id == r.id && t.routes[j].comment == r.comment;
    } else {
      PatchableExactly(client, b);
      assert r == Edited(t.routes[j], EditOf(b));
      assert t.routes[j].id == r.id;
    }
  }

  lemma DeleteAdmits(t: Table, id: nat, net: Net, owner: string, r: Route)
    requires r in DeleteStep(t, id, net).0.routes
    ensures TagOrBefore(owner, t, r)
  {
    assert r in t.routes;
    var j :| 0 <= j < |t.routes| && t.routes[j] == r;
  }

  /**
   From the document to the account: where an entry names an owner, nothing the client asks for leaves any
   other owner's tag, or any other comment, on a route that did not carry it.
   */
  lemma OwnerBinds(fields: seq<Field>, policy: Clients, k: nat, owner: string, t: Table, req: Request, size: nat,
    net: Net, draw: nat, r: Route)
    requires PolicyAsWritten(fields, policy) && k < |fields|
    requires HasField(fields[k].value.fields, "owner", JString(owner))
    requires r in Handle(policy, t, Some(fields[k].key), req, size, net, draw).0.routes
    ensures TagOrBefore(owner, t, r)
  {
    var client := policy[fields[k].key];
    assert client.owner == Some(owner);
    match req
    case CreateRoute(body) => CreateAdmits(client, t, body, net, draw, r);
    case PatchRoute(id, body) =>
      if body.Some? && OwnRoute(client, t, id, net).Success? {
        PatchAdmits(client, t, id.value, body.value, net, r);
      } else {
        Unchanged(t, owner, r);
      }
    case DeleteRoute(id) =>
      if OwnRoute(client, t, id, net).Success? {
        DeleteAdmits(t, id.value, net, owner, r);
      } else {
        Unchanged(t, owner, r);
      }
    case _ => Unchanged(t, owner, r);
  }

  lemma Unchanged(t: Table, owner: string, r: Route)
    requires r in t.routes
    ensures TagOrBefore(owner, t, r)
  {
    var j :| 0 <= j < |t.routes| && t.routes[j] == r;
  }
}
