/**
 Non-interference through the broker: a client's answers depend on its own routes and on which names are
 taken, and on nothing else; and no other client's request changes its routes.
 */
module BrokerIsolation {
  import opened Wrappers
  import opened Text
  import opened Routes
  import Reconcile
  import opened Policy
  import opened PolicyParse
  import opened UpstreamApi
  import opened Broker
  import opened BrokerViews

  // Listing.

  /** A listing of one of the client's tunnels shows nothing but the client's routes. */
  lemma {:induction false} SelectKept(mine: iset<string>, q: Query, rs: seq<Route>)
    requires q.tunnel.Some? && q.tunnel.value in mine
    ensures Select(q, Keep(mine, rs)) == Select(q, rs)
  {
    if rs != [] {
      var front, last := rs[..|rs| - 1], rs[|rs| - 1];
      SelectKept(mine, q, front);
      if last.tunnel in mine {
        assert (Keep(mine, front) + [last])[..|Keep(mine, front)|] == Keep(mine, front);
      } else {
        assert Keep(mine, rs) == Keep(mine, front);
      }
    }
  }

  lemma {:induction false} GatherAgrees(client: ClientPolicy, a: Table, b: Table, req: Request, scopes: seq<string>,
    size: nat, net: Net)
    requires req.ListRoutes? && Keep(Mine(client), a.routes) == Keep(Mine(client), b.routes)
    requires forall i :: 0 <= i < |scopes| ==> scopes[i] in Mine(client)
    ensures Gather(client, a, req, scopes, size, net) == Gather(client, b, req, scopes, size, net)
    decreases |scopes|
  {
    if scopes != [] {
      var front, tunnel := scopes[..|scopes| - 1], scopes[|scopes| - 1];
      assert forall i :: 0 <= i < |front| ==> front[i] == scopes[i];
      GatherAgrees(client, a, b, req, front, size, net);
      SelectKept(Mine(client), TunnelQuery(req, tunnel), a.routes);
      SelectKept(Mine(client), TunnelQuery(req, tunnel), b.routes);
    }
  }

  lemma ScopesAreMine(client: ClientPolicy, tunnel: Option<string>)
    requires Canonical(client) && (tunnel.Some? ==> TunnelAllowed(client, Str(tunnel.value)))
    ensures forall i :: 0 <= i < |Scopes(client, tunnel)| ==> Scopes(client, tunnel)[i] in Mine(client)
  {
    forall i | 0 <= i < |Scopes(client, tunnel)|
      ensures Scopes(client, tunnel)[i] in Mine(client)
    {
      assert Scopes(client, tunnel)[i] in client.tunnels;
    }
  }

  lemma ListAgrees(client: ClientPolicy, a: Table, b: Table, req: Request, size: nat, net: Net)
    requires Canonical(client) && req.ListRoutes? && Keep(Mine(client), a.routes) == Keep(Mine(client), b.routes)
    ensures ListReply(client, a, req, size, net) == ListReply(client, b, req, size, net)
  {
    if req.tunnel.None? || TunnelAllowed(client, Str(req.tunnel.value)) {
      ScopesAreMine(client, req.tunnel);
      GatherAgrees(client, a, b, req, Scopes(client, req.tunnel), size, net);
    }
  }

  // Changing: what becomes of the view depends on the view.

  /** The view and the taken names after a change, from those before it. */
  ghost predicate ViewBecomes(mine: iset<string>, t': Table, view: seq<Route>, taken: iset<string>) {
    Keep(mine, t'.routes) == view && forall h :: Held(t'.routes, h) <==> h in taken
  }

  ghost function Taken(t: Table): iset<string> {
    iset h | Held(t.routes, h)
  }

  lemma SameView(mine: iset<string>, a: Table, b: Table, view: seq<Route>, taken: iset<string>)
    requires ViewBecomes(mine, a, view, taken) && ViewBecomes(mine, b, view, taken)
    ensures Agree(mine, a, b)
  {
  }

  lemma PostView(mine: iset<string>, t: Table, id: nat, hostname: string, tunnel: string, comment: string, reply: Reply)
    requires tunnel in mine
    ensures var (t', a), name := PostTo(t, id, hostname, tunnel, comment, reply), StoredName(hostname);
      var r := Route(id, name, tunnel, comment, false);
      if reply.Fails? || name in Taken(t) then
        && t' == t && a == (if reply.Works? then NameTaken else Down)
      else
        && ViewBecomes(mine, t', Keep(mine, t.routes) + [r], Taken(t) + iset{name})
        && a == (if reply.Works? then Found(r) else Down)
  {
    var name := StoredName(hostname);
    if !reply.Fails? && !Held(t.routes, name) {
      KeepAppend(mine, t.routes, Route(id, name, tunnel, comment, false));
      forall h {
        HeldAfterAdd(t, id, hostname, tunnel, comment, h);
      }
    }
  }

  lemma FindMineAt(mine: iset<string>, t: Table, id: nat, r: Route)
    requires ValidTable(t) && FindMine(mine, t, id) == Some(r)
    ensures var i := Find(t.routes, id).value;
      && t.routes[i] == r && r.id == id && r.tunnel in mine
      && (forall j :: 0 <= j < |t.routes| && t.routes[j].id == id ==> j == i)
  {
  }

  lemma ReplacedView(mine: iset<string>, t: Table, i: nat, r: Route, r': Route)
    requires ValidTable(t) && i < |t.routes| && t.routes[i] == r && r'.id == r.id && r.tunnel in mine
    requires r'.tunnel in mine
    ensures ViewBecomes(mine, Replaced(t, i, r'), WithId(Keep(mine, t.routes), r.id, r'),
      Taken(t) - iset{r.hostname} + iset{r'.hostname})
  {
    assert Replaced(t, i, r').routes == WithId(t.routes, r.id, r');
    KeepWithId(mine, t.routes, r.id, r');
    forall h {
      HeldAfterReplace(t, i, r', h);
    }
  }

  lemma PatchView(mine: iset<string>, t: Table, id: nat, e: Edit, reply: Reply, r: Route)
    requires ValidTable(t) && FindMine(mine, t, id) == Some(r) && Edited(r, e).tunnel in mine
    ensures var (t', a), r' := PatchAt(t, id, e, reply), Edited(r, e);
      if reply.Fails? || (r'.hostname in Taken(t) && r'.hostname != r.hostname) then
        && t' == t && a == (if reply.Works? then NameTaken else Down)
      else
        && ViewBecomes(mine, t', WithId(Keep(mine, t.routes), id, r'), Taken(t) - iset{r.hostname} + iset{r'.hostname})
        && a == (if reply.Works? then Found(r') else Down)
  {
    var i, r' := Find(t.routes, id).value, Edited(r, e);
    FindMineAt(mine, t, id, r);
    RenamableIsFree(t, i, r'.hostname);
    if !reply.Fails? && Renamable(t.routes, i, r'.hostname) {
      ReplacedView(mine, t, i, r, r');
    }
  }

  lemma RemovedView(mine: iset<string>, t: Table, i: nat)
    requires ValidTable(t) && i < |t.routes|
    ensures ViewBecomes(mine, Removed(t, i), WithoutId(Keep(mine, t.routes), t.routes[i].id),
      Taken(t) - iset{t.routes[i].hostname})
  {
    RemovedIsWithout(t.routes, i);
    KeepWithoutId(mine, t.routes, t.routes[i].id);
    forall h {
      HeldAfterRemove(t, i, h);
    }
  }

  lemma DeleteView(mine: iset<string>, t: Table, id: nat, reply: Reply, r: Route)
    requires ValidTable(t) && FindMine(mine, t, id) == Some(r)
    ensures var (t', a) := DeleteAt(t, id, reply);
      if reply.Fails? then t' == t && a == Down
      else
        && ViewBecomes(mine, t', WithoutId(Keep(mine, t.routes), id), Taken(t) - iset{r.hostname})
        && a == (if reply.Works? then Found(r) else Down)
  {
    FindMineAt(mine, t, id, r);
    RemovedView(mine, t, Find(t.routes, id).value);
  }

  lemma TakenAgrees(mine: iset<string>, a: Table, b: Table)
    requires Agree(mine, a, b)
    ensures Taken(a) == Taken(b)
  {
  }

  lemma PostAgrees(mine: iset<string>, a: Table, b: Table, id: nat, hostname: string, tunnel: string, comment: string,
    reply: Reply)
    requires Agree(mine, a, b) && tunnel in mine
    ensures PostTo(a, id, hostname, tunnel, comment, reply).1 == PostTo(b, id, hostname, tunnel, comment, reply).1
    ensures Agree(mine, PostTo(a, id, hostname, tunnel, comment, reply).0,
      PostTo(b, id, hostname, tunnel, comment, reply).0)
  {
    PostView(mine, a, id, hostname, tunnel, comment, reply);
    PostView(mine, b, id, hostname, tunnel, comment, reply);
    TakenAgrees(mine, a, b);
  }

  lemma CreateAgrees(client: ClientPolicy, a: Table, b: Table, body: Option<Body>, net: Net, draw: nat)
    requires Agree(Mine(client), a, b)
    ensures CreateStep(client, a, body, net, draw).1 == CreateStep(client, b, body, net, draw).1
    ensures Agree(Mine(client), CreateStep(client, a, body, net, draw).0, CreateStep(client, b, body, net, draw).0)
  {
    if body.Some? && MayCreate(client, body.value) {
      var v := body.value;
      PostAgrees(Mine(client), a, b, draw, v.hostname.s, v.tunnel.s, CommentOf(v.comment), net(ChangeCall));
    }
  }

  lemma PatchStaysMine(client: ClientPolicy, r: Route, b: Body)
    requires r.tunnel in Mine(client) && MayPatch(client, b)
    ensures Edited(r, EditOf(b)).tunnel in Mine(client)
  {
  }

  lemma PatchAgrees(client: ClientPolicy, a: Table, b: Table, id: nat, body: Body, net: Net, r: Route)
    requires ValidTable(a) && ValidTable(b) && Agree(Mine(client), a, b) && FindMine(Mine(client), a, id) == Some(r)
    ensures PatchStep(client, a, id, body, net).1 == PatchStep(client, b, id, body, net).1
    ensures Agree(Mine(client), PatchStep(client, a, id, body, net).0, PatchStep(client, b, id, body, net).0)
  {
    if MayPatch(client, body) {
      FindMineAgrees(Mine(client), a, b, id);
      FindMineAt(Mine(client), a, id, r);
      PatchStaysMine(client, r, body);
      PatchView(Mine(client), a, id, EditOf(body), net(ChangeCall), r);
      PatchView(Mine(client), b, id, EditOf(body), net(ChangeCall), r);
      TakenAgrees(Mine(client), a, b);
    }
  }

  lemma DeleteAgrees(client: ClientPolicy, a: Table, b: Table, id: nat, net: Net, r: Route)
    requires ValidTable(a) && ValidTable(b) && Agree(Mine(client), a, b) && FindMine(Mine(client), a, id) == Some(r)
    ensures DeleteStep(a, id, net).1 == DeleteStep(b, id, net).1
    ensures Agree(Mine(client), DeleteStep(a, id, net).0, DeleteStep(b, id, net).0)
  {
    FindMineAgrees(Mine(client), a, b, id);
    DeleteView(Mine(client), a, id, net(ChangeCall), r);
    DeleteView(Mine(client), b, id, net(ChangeCall), r);
    TakenAgrees(Mine(client), a, b);
  }

  lemma LookUpFinds(client: ClientPolicy, t: Table, id: Option<nat>, net: Net)
    requires OwnRoute(client, t, id, net).Success?
    ensures id.Some? && FindMine(Mine(client), t, id.value) == Some(OwnRoute(client, t, id, net).value)
  {
    if id.Some? {
      LookUpIsOwn(client, t, id.value, net);
    }
  }

  /**
   Non-interference: where two accounts agree on the client's own routes and on which names are taken,
   every request of the client gets the same answer from both, and they still agree afterwards.
   */
  lemma NonInterference(client: ClientPolicy, a: Table, b: Table, req: Request, size: nat, net: Net, draw: nat)
    requires Canonical(client) && ValidTable(a) && ValidTable(b) && Agree(Mine(client), a, b)
    ensures Serve(client, a, req, size, net, draw).1 == Serve(client, b, req, size, net, draw).1
    ensures Agree(Mine(client), Serve(client, a, req, size, net, draw).0, Serve(client, b, req, size, net, draw).0)
  {
    match req
    case ListRoutes(_, _, _) => ListAgrees(client, a, b, req, size, net);
    case CreateRoute(body) => CreateAgrees(client, a, b, body, net, draw);
    case PatchRoute(id, body) =>
      LookUpAgrees(client, a, b, id, net);
      if body.Some? && OwnRoute(client, a, id, net).Success? {
        LookUpFinds(client, a, id, net);
        PatchAgrees(client, a, b, id.value, body.value, net, OwnRoute(client, a, id, net).value);
      }
    case DeleteRoute(id) =>
      LookUpAgrees(client, a, b, id, net);
      if OwnRoute(client, a, id, net).Success? {
        LookUpFinds(client, a, id, net);
        DeleteAgrees(client, a, b, id.value, net, OwnRoute(client, a, id, net).value);
      }
    case OtherMethod =>
  }

  // Other clients.

  lemma TunnelsApart(policy: Clients, c: string, d: string, tunnel: string)
    requires WellDivided(policy) && c in policy && d in policy && c != d && tunnel in Mine(policy[d])
    ensures tunnel !in Mine(policy[c])
  {
  }

  lemma ForeignPatch(mine: iset<string>, theirs: iset<string>, t: Table, id: nat, e: Edit, reply: Reply, r: Route)
    requires ValidTable(t) && mine !! theirs && FindMine(theirs, t, id) == Some(r) && Edited(r, e).tunnel in theirs
    ensures Keep(mine, PatchAt(t, id, e, reply).0.routes) == Keep(mine, t.routes)
  {
    var i, r' := Find(t.routes, id).value, Edited(r, e);
    FindMineAt(theirs, t, id, r);
    if !reply.Fails? && Renamable(t.routes, i, r'.hostname) {
      assert Replaced(t, i, r').routes == WithId(t.routes, id, r');
      KeepForeignChange(mine, t.routes, id, r');
    }
  }

  lemma ForeignDelete(mine: iset<string>, theirs: iset<string>, t: Table, id: nat, reply: Reply, r: Route)
    requires ValidTable(t) && mine !! theirs && FindMine(theirs, t, id) == Some(r)
    ensures Keep(mine, DeleteAt(t, id, reply).0.routes) == Keep(mine, t.routes)
  {
    FindMineAt(theirs, t, id, r);
    if !reply.Fails? {
      RemovedIsWithout(t.routes, Find(t.routes, id).value);
      KeepForeignChange(mine, t.routes, id, r);
    }
  }

  lemma ForeignPost(mine: iset<string>, t: Table, id: nat, hostname: string, tunnel: string, comment: string,
    reply: Reply)
    requires tunnel !in mine
    ensures Keep(mine, PostTo(t, id, hostname, tunnel, comment, reply).0.routes) == Keep(mine, t.routes)
  {
    KeepAppend(mine, t.routes, Route(id, StoredName(hostname), tunnel, comment, false));
  }

  lemma MineApart(policy: Clients, c: string, d: string)
    requires WellDivided(policy) && c in policy && d in policy && c != d
    ensures Mine(policy[c]) !! Mine(policy[d])
  {
    forall tunnel | tunnel in Mine(policy[d])
      ensures tunnel !in Mine(policy[c])
    {
      TunnelsApart(policy, c, d, tunnel);
    }
  }

  /** No request of one client changes another's routes: at most which names are taken. */
  lemma OthersKeepView(policy: Clients, t: Table, c: string, who: Option<string>, req: Request, size: nat, net: Net,
    draw: nat)
    requires WellDivided(policy) && ValidTable(t) && c in policy && who != Some(c)
    ensures Keep(Mine(policy[c]), Handle(policy, t, who, req, size, net, draw).0.routes) ==
      Keep(Mine(policy[c]), t.routes)
  {
    if who.Some? && who.value in policy {
      var client, mine := policy[who.value], Mine(policy[c]);
      MineApart(policy, c, who.value);
      match req
      case CreateRoute(body) =>
        if body.Some? && MayCreate(client, body.value) {
          var v := body.value;
          ForeignPost(mine, t, draw, v.hostname.s, v.tunnel.s, CommentOf(v.comment), net(ChangeCall));
        }
      case PatchRoute(id, body) =>
        if body.Some? && OwnRoute(client, t, id, net).Success? && MayPatch(client, body.value) {
          LookUpFinds(client, t, id, net);
          var r := OwnRoute(client, t, id, net).value;
          PatchStaysMine(client, r, body.value);
          ForeignPatch(mine, Mine(client), t, id.value, EditOf(body.value), net(ChangeCall), r);
        }
      case DeleteRoute(id) =>
        if OwnRoute(client, t, id, net).Success? {
          LookUpFinds(client, t, id, net);
          ForeignDelete(mine, Mine(client), t, id.value, net(ChangeCall), OwnRoute(client, t, id, net).value);
        }
      case _ =>
    }
  }

  /** An id that is someone else's is answered exactly as one that does not exist. */
  lemma ForeignIsMissing(client: ClientPolicy, t: Table, id: nat, gone: Table, req: Request, size: nat, net: Net,
    draw: nat)
    requires (req.PatchRoute? || req.DeleteRoute?) && req.id == Some(id)
    requires FindMine(Mine(client), t, id).None? && Find(gone.routes, id).None?
    ensures Serve(client, t, req, size, net, draw).0 == t
    ensures Serve(client, t, req, size, net, draw).1 == Serve(client, gone, req, size, net, draw).1
  {
    LookUpIsOwn(client, t, id, net);
    LookUpIsOwn(client, gone, id, net);
  }

  // The provider behind the broker.

  /** A client lists only its own routes. */
  lemma {:induction false} GatherIsOwn(client: ClientPolicy, t: Table, req: Request, scopes: seq<string>, size: nat,
    net: Net)
    requires req.ListRoutes? && Gather(client, t, req, scopes, size, net).Success?
    ensures forall r :: r in Gather(client, t, req, scopes, size, net).value ==> r in t.routes && OnTunnels(client, r)
    decreases |scopes|
  {
    if scopes != [] {
      var tunnel := scopes[|scopes| - 1];
      GatherIsOwn(client, t, req, scopes[..|scopes| - 1], size, net);
      PagesAreOwn(client, Select(TunnelQuery(req, tunnel), t.routes), tunnel, 1, size, net);
    }
  }

  lemma {:induction false} PagesAreOwn(client: ClientPolicy, xs: seq<Route>, tunnel: string, page: nat, size: nat,
    net: Net)
    requires page > 0 && PagesFrom(client, xs, tunnel, page, size, net).Success?
    ensures forall r :: r in PagesFrom(client, xs, tunnel, page, size, net).value ==> r in xs && OnTunnels(client, r)
    decreases MAX_UPSTREAM_PAGES + 1 - page
  {
    if page <= MAX_UPSTREAM_PAGES {
      AllowedIsKept(client, PageOf(xs, page, size));
      KeepElements(Mine(client), PageOf(xs, page, size));
      if !LastPage(PageOf(xs, page, size), page, size, |xs|) {
        PagesAreOwn(client, xs, tunnel, page + 1, size, net);
      }
    }
  }

  /** An index a provider builds from an account-wide list through the broker. */
  ghost predicate IndexOfList(rs: seq<Route>, index: Reconcile.Index) {
    forall h :: h in index ==> exists i :: 0 <= i < |rs| && rs[i] == index[h] && Lower(rs[i].hostname) == h
  }

  /** A name held on someone else's tunnel is pending for an unknown reason: the holder is not disclosed. */
  lemma ForeignHolderUnknown(cfg: Reconcile.Config, client: ClientPolicy, t: Table, req: Request, size: nat, net: Net,
    index: Reconcile.Index, i: nat)
    requires req.ListRoutes? && ListReply(client, t, req, size, net).Listed? && ValidTable(t)
    requires forall j :: 0 <= j < |t.routes| ==> IsLower(t.routes[j].hostname)
    requires IndexOfList(ListReply(client, t, req, size, net).routes, index)
    requires i < |t.routes| && !OnTunnels(client, t.routes[i])
    ensures Reconcile.Classify(cfg, index, t.routes[i].hostname) == Reconcile.PendingUnknown
  {
    GatherIsOwn(client, t, req, Scopes(client, req.tunnel), size, net);
    var h, rs := t.routes[i].hostname, ListReply(client, t, req, size, net).routes;
    assert forall j :: 0 <= j < |t.routes| && j != i ==> t.routes[j].hostname != h;
    forall r | r in rs
      ensures Lower(r.hostname) != h
    {
      var j :| 0 <= j < |t.routes| && t.routes[j] == r;
    }
    assert h !in index;
  }
}
