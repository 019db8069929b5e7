/**
 The broker: Cloudflare's own API with a policy in between, so a client sees and touches only routes on
 its own tunnels, under names it may manage.
 */
module Broker {
  import opened Wrappers
  import opened Text
  import opened Routes
  import opened Policy
  import opened PolicyParse
  import opened UpstreamApi

  const MAX_UPSTREAM_PAGES: nat := 100

  datatype Body = Body(hostname: Value, tunnel: Value, comment: Value)

  /** An id that does not look like one, or a body that is not an object, is None. */
  datatype Request =
    | ListRoutes(tunnel: Option<string>, hostname: Option<string>, comment: Option<string>)
    | CreateRoute(body: Option<Body>)
    | PatchRoute(id: Option<nat>, body: Option<Body>)
    | DeleteRoute(id: Option<nat>)
    | OtherMethod

  datatype Response =
    | Unauthenticated | NotPermitted | MethodNotAllowed
    | BadRequest | Denied | NotFound | AlreadyRouted | UpstreamFailed
    | Listed(routes: seq<Route>) | Stored(route: Route) | Deleted(id: nat)

  /** The upstream calls a request makes. */
  datatype UpCall = GetCall | PageCall(tunnel: string, page: nat) | ChangeCall

  type Net = UpCall -> Reply

  predicate OnTunnels(client: ClientPolicy, r: Route) {
    TunnelAllowed(client, Str(r.tunnel))
  }

  predicate Visible(client: ClientPolicy, r: Route) {
    OnTunnels(client, r) && HostnameAllowed(client, Str(r.hostname))
  }

  // Looking a route up.

  function OwnRoute(client: ClientPolicy, t: Table, id: Option<nat>, net: Net): Result<Route, Response> {
    if id.None? then Failure(NotFound)
    else
      match GetFrom(t, id.value, net(GetCall))
      case Found(r) => if Visible(client, r) then Success(r) else Failure(NotFound)
      case Absent => Failure(NotFound)
      case NameTaken => Failure(UpstreamFailed)
      case Down => Failure(UpstreamFailed)
  }

  // Listing.

  function Allowed(client: ClientPolicy, rs: seq<Route>): (out: seq<Route>)
    ensures (forall r :: r in rs ==> OnTunnels(client, r)) ==> out == rs
  {
    if rs == [] then []
    else
      assert rs == rs[..|rs| - 1] + [rs[|rs| - 1]];
      Allowed(client, rs[..|rs| - 1]) + if OnTunnels(client, rs[|rs| - 1]) then [rs[|rs| - 1]] else []
  }

  /** Nothing more to ask for: an empty page, no page size reported, or everything seen. */
  predicate LastPage(batch: seq<Route>, page: nat, perPage: nat, total: nat) {
    batch == [] || perPage == 0 || page * perPage >= total
  }

  /** What the page loop gathers from one tunnel's listing, from this page on. */
  function PagesFrom(client: ClientPolicy, xs: seq<Route>, tunnel: string, page: nat, size: nat,
    net: Net): Result<seq<Route>, ()>
    requires page > 0
    decreases MAX_UPSTREAM_PAGES + 1 - page
  {
    if page > MAX_UPSTREAM_PAGES then Success([])
    else if !net(PageCall(tunnel, page)).Works? then Failure(())
    else
      var batch := PageOf(xs, page, size);
      if LastPage(batch, page, size, |xs|) then Success(Allowed(client, batch))
      else
        match PagesFrom(client, xs, tunnel, page + 1, size, net)
        case Failure(_) => Failure(())
        case Success(rest) => Success(Allowed(client, batch) + rest)
  }

  /** The tunnels a list covers: the one asked for, or all the client's. */
  function Scopes(client: ClientPolicy, tunnel: Option<string>): seq<string> {
    if tunnel.Some? then [CanonicalTunnel(tunnel.value)] else client.tunnels
  }

  function TunnelQuery(req: Request, tunnel: string): Query
    requires req.ListRoutes?
  {
    Query(Some(tunnel), req.hostname, req.comment)
  }

  function Gather(client: ClientPolicy, t: Table, req: Request, scopes: seq<string>, size: nat,
    net: Net): Result<seq<Route>, ()>
    requires req.ListRoutes?
  {
    if scopes == [] then Success([])
    else
      match Gather(client, t, req, scopes[..|scopes| - 1], size, net)
      case Failure(_) => Failure(())
      case Success(before) =>
        var tunnel := scopes[|scopes| - 1];
        match PagesFrom(client, Select(TunnelQuery(req, tunnel), t.routes), tunnel, 1, size, net)
        case Failure(_) => Failure(())
        case Success(more) => Success(before + more)
  }

  function ListReply(client: ClientPolicy, t: Table, req: Request, size: nat, net: Net): Response
    requires req.ListRoutes?
  {
    if req.tunnel.Some? && !TunnelAllowed(client, Str(req.tunnel.value)) then Denied
    else
      match Gather(client, t, req, Scopes(client, req.tunnel), size, net)
      case Failure(_) => UpstreamFailed
      case Success(rs) => Listed(rs)
  }

  // Changing.

  function CommentOf(v: Value): string {
    if v.Str? then v.s else ""
  }

  function ReplyTo(a: Answer): Response {
    match a
    case Found(r) => Stored(r)
    case Absent => NotFound
    case NameTaken => AlreadyRouted
    case Down => UpstreamFailed
  }

  /** The routes a client may create. */
  predicate MayCreate(client: ClientPolicy, b: Body) {
    TunnelAllowed(client, b.tunnel) && HostnameAllowed(client, b.hostname) && CommentAllowed(client, b.comment, true)
  }

  function CreateStep(client: ClientPolicy, t: Table, body: Option<Body>, net: Net, draw: nat): (Table, Response) {
    if body.None? then (t, BadRequest)
    else if !MayCreate(client, body.value) then (t, Denied)
    else
      var b := body.value;
      var (t', a) := PostTo(t, draw, b.hostname.s, b.tunnel.s, CommentOf(b.comment), net(ChangeCall));
      (t', ReplyTo(a))
  }

  /** The changes a client may make to a route of its own. */
  predicate MayPatch(client: ClientPolicy, b: Body) {
    && (b.tunnel.Undefined? || TunnelAllowed(client, b.tunnel))
    && (b.hostname.Undefined? || HostnameAllowed(client, b.hostname))
    && CommentAllowed(client, b.comment, false)
  }

  /** A null comment clears the comment; an absent one leaves it. */
  function EditOf(b: Body): Edit {
    Edit(if b.hostname.Str? then Some(b.hostname.s) else None,
         if b.tunnel.Str? then Some(b.tunnel.s) else None,
         if b.comment.Undefined? then None else Some(CommentOf(b.comment)))
  }

  /** The second half of a patch, once its route has been looked up. */
  function PatchStep(client: ClientPolicy, t: Table, id: nat, b: Body, net: Net): (Table, Response) {
    if !MayPatch(client, b) then (t, Denied)
    else
      var (t', a) := PatchAt(t, id, EditOf(b), net(ChangeCall));
      (t', ReplyTo(a))
  }

  /** The second half of a delete. */
  function DeleteStep(t: Table, id: nat, net: Net): (Table, Response) {
    var (t', a) := DeleteAt(t, id, net(ChangeCall));
    (t', if a.Found? then Deleted(a.route.id) else ReplyTo(a))
  }

  /** A patch: its route is looked up, then changed. */
  function PatchRequest(client: ClientPolicy, t: Table, id: Option<nat>, body: Option<Body>, net: Net)
    : (Table, Response)
  {
    if body.None? then (t, BadRequest)
    else
      match OwnRoute(client, t, id, net)
      case Failure(refusal) => (t, refusal)
      case Success(_) => PatchStep(client, t, id.value, body.value, net)
  }

  /** A delete: its route is looked up, then deleted. */
  function DeleteRequest(client: ClientPolicy, t: Table, id: Option<nat>, net: Net): (Table, Response) {
    match OwnRoute(client, t, id, net)
    case Failure(refusal) => (t, refusal)
    case Success(_) => DeleteStep(t, id.value, net)
  }

  /** One request, from beginning to end. `draw` is the id a create would be given. */
  function Serve(client: ClientPolicy, t: Table, req: Request, size: nat, net: Net, draw: nat): (Table, Response) {
    match req
    case ListRoutes(_, _, _) => (t, ListReply(client, t, req, size, net))
    case CreateRoute(body) => CreateStep(client, t, body, net, draw)
    case PatchRoute(id, body) => PatchRequest(client, t, id, body, net)
    case DeleteRoute(id) => DeleteRequest(client, t, id, net)
    case OtherMethod => (t, MethodNotAllowed)
  }

  /** Who is asking: nobody authenticated, a client the policy does not name, or a client it does. */
  function Handle(policy: Clients, t: Table, who: Option<string>, req: Request, size: nat, net: Net, draw: nat)
    : (Table, Response)
  {
    if who.None? then (t, Unauthenticated)
    else if who.value !in policy then (t, NotPermitted)
    else Serve(policy[who.value], t, req, size, net, draw)
  }

  /** One tunnel being listed. */
  datatype Listing = Listing(client: ClientPolicy, xs: seq<Route>, tunnel: string, size: nat, net: Net)
  {
    function From(page: nat): Result<seq<Route>, ()>
      requires page > 0
    {
      PagesFrom(client, xs, tunnel, page, size, net)
    }

    /** What has been gathered and what is still to come make up the whole. */
    ghost predicate Continues(page: nat, routes: seq<Route>)
      requires page > 0
    {
      match From(page)
      case Failure(_) => From(1).Failure?
      case Success(rest) => From(1) == Success(routes + rest)
    }

    lemma Begins()
      ensures Continues(1, [])
    {
      assert From(1).Success? ==> [] + From(1).value == From(1).value;
    }

    lemma Ends(page: nat, routes: seq<Route>)
      requires page > MAX_UPSTREAM_PAGES && Continues(page, routes)
      ensures From(1) == Success(routes)
    {
      assert routes + [] == routes;
    }

    lemma Stops(page: nat, routes: seq<Route>)
      requires 0 < page <= MAX_UPSTREAM_PAGES && Continues(page, routes)
      ensures !net(PageCall(tunnel, page)).Works? ==> From(1).Failure?
    {
    }

    lemma EndsHere(page: nat, routes: seq<Route>)
      requires 0 < page <= MAX_UPSTREAM_PAGES && Continues(page, routes) && net(PageCall(tunnel, page)).Works?
      requires LastPage(PageOf(xs, page, size), page, size, |xs|)
      ensures From(1) == Success(routes + Allowed(client, PageOf(xs, page, size)))
    {
    }

    lemma GoesOn(page: nat, routes: seq<Route>)
      requires 0 < page <= MAX_UPSTREAM_PAGES && Continues(page, routes) && net(PageCall(tunnel, page)).Works?
      requires !LastPage(PageOf(xs, page, size), page, size, |xs|)
      ensures Continues(page + 1, routes + Allowed(client, PageOf(xs, page, size)))
    {
      var batch := Allowed(client, PageOf(xs, page, size));
      if From(page + 1).Success? {
        assert (routes + batch) + From(page + 1).value == routes + (batch + From(page + 1).value);
      }
    }
  }

  class Handler {
    const policy: Clients
    const up: Upstream

    constructor (policy: Clients, up: Upstream)
      ensures this.policy == policy && this.up == up
    {
      this.policy, this.up := policy, up;
    }

    method LookUp(client: ClientPolicy, id: Option<nat>, net: Net) returns (r: Result<Route, Response>)
      ensures r == OwnRoute(client, up.table, id, net)
    {
      if id.None? {
        return Failure(NotFound);
      }
      var a := GetFrom(up.table, id.value, net(GetCall));
      match a
      case Found(route) => return if Visible(client, route) then Success(route) else Failure(NotFound);
      case Absent => return Failure(NotFound);
      case _ => return Failure(UpstreamFailed);
    }

    /** Adds one page to what has been gathered, and says whether it was the last. */
    method ListPage(client: ClientPolicy, q: Query, tunnel: string, net: Net, page: nat, gathered: seq<Route>,
      ghost listing: Listing) returns (r: Result<(seq<Route>, bool), ()>)
      requires listing == Listing(client, Select(q, up.table.routes), tunnel, up.size, net)
      requires 0 < page <= MAX_UPSTREAM_PAGES && listing.Continues(page, gathered)
      ensures r.Failure? ==> listing.From(1).Failure?
      ensures r.Success? ==>
        if r.value.1 then listing.From(1) == Success(r.value.0) else listing.Continues(page + 1, r.value.0)
    {
      var answer := up.GetPage(q, page, net(PageCall(tunnel, page)));
      if answer.Failure? {
        listing.Stops(page, gathered);
        return Failure(());
      }
      var (batch, perPage, total) := answer.value;
      if LastPage(batch, page, perPage, total) {
        listing.EndsHere(page, gathered);
      } else {
        listing.GoesOn(page, gathered);
      }
      return Success((gathered + Allowed(client, batch), LastPage(batch, page, perPage, total)));
    }

    /** All pages of one tunnel, up to the cap. */
    method ListPages(client: ClientPolicy, req: Request, tunnel: string, net: Net) returns (r: Result<seq<Route>, ()>)
      requires req.ListRoutes?
      ensures r == PagesFrom(client, Select(TunnelQuery(req, tunnel), up.table.routes), tunnel, 1, up.size, net)
    {
      var q := TunnelQuery(req, tunnel);
      ghost var listing := Listing(client, Select(q, up.table.routes), tunnel, up.size, net);
      var routes: seq<Route> := [];
      listing.Begins();
      var page := 1;
      while page <= MAX_UPSTREAM_PAGES
        invariant 1 <= page <= MAX_UPSTREAM_PAGES + 1
        invariant listing.Continues(page, routes)
      {
        var gathered := ListPage(client, q, tunnel, net, page, routes, listing);
        if gathered.Failure? {
          return Failure(());
        }
        routes := gathered.value.0;
        if gathered.value.1 {
          return Success(routes);
        }
        page := page + 1;
      }
      listing.Ends(page, routes);
      return Success(routes);
    }

    method List(client: ClientPolicy, req: Request, net: Net) returns (resp: Response)
      requires req.ListRoutes?
      ensures resp == ListReply(client, up.table, req, up.size, net)
    {
      if req.tunnel.Some? && !TunnelAllowed(client, Str(req.tunnel.value)) {
        return Denied;
      }
      var gathered := ListScopes(client, req, Scopes(client, req.tunnel), net);
      return if gathered.Failure? then UpstreamFailed else Listed(gathered.value);
    }

    /** One tunnel after another; one failed page fails the list. */
    method ListScopes(client: ClientPolicy, req: Request, scopes: seq<string>, net: Net)
      returns (r: Result<seq<Route>, ()>)
      requires req.ListRoutes?
      ensures r == Gather(client, up.table, req, scopes, up.size, net)
    {
      var routes: seq<Route> := [];
      for i := 0 to |scopes|
        invariant Gather(client, up.table, req, scopes[..i], up.size, net) == Success(routes)
      {
        GatherNext(client, up.table, req, scopes, up.size, net, i);
        var more := ListPages(client, req, scopes[i], net);
        if more.Failure? {
          GatherFails(client, up.table, req, scopes, up.size, net, i + 1);
          return Failure(());
        }
        routes := routes + more.value;
      }
      assert scopes[..|scopes|] == scopes;
      return Success(routes);
    }

    method Create(client: ClientPolicy, body: Option<Body>, net: Net, draw: nat) returns (resp: Response)
      modifies up`table
      ensures (up.table, resp) == CreateStep(client, old(up.table), body, net, draw)
    {
      if body.None? {
        return BadRequest;
      }
      var b := body.value;
      if !TunnelAllowed(client, b.tunnel) {
        return Denied;
      }
      if !HostnameAllowed(client, b.hostname) {
        return Denied;
      }
      if !CommentAllowed(client, b.comment, true) {
        return Denied;
      }
      var a := up.PostRoute(draw, b.hostname.s, b.tunnel.s, CommentOf(b.comment), net(ChangeCall));
      return ReplyTo(a);
    }

    method Patch(client: ClientPolicy, id: Option<nat>, body: Option<Body>, net: Net) returns (resp: Response)
      modifies up`table
      ensures (up.table, resp) == PatchRequest(client, old(up.table), id, body, net)
    {
      if body.None? {
        return BadRequest;
      }
      var found := LookUp(client, id, net);
      if found.Failure? {
        return found.error;
      }
      var b := body.value;
      if !b.tunnel.Undefined? && !TunnelAllowed(client, b.tunnel) {
        return Denied;
      }
      if !b.hostname.Undefined? && !HostnameAllowed(client, b.hostname) {
        return Denied;
      }
      if !CommentAllowed(client, b.comment, false) {
        return Denied;
      }
      var a := up.PatchRoute(id.value, EditOf(b), net(ChangeCall));
      return ReplyTo(a);
    }

    method Remove(client: ClientPolicy, id: Option<nat>, net: Net) returns (resp: Response)
      modifies up`table
      ensures (up.table, resp) == DeleteRequest(client, old(up.table), id, net)
      ensures ValidTable(old(up.table)) && resp.Deleted? ==>
        id == Some(resp.id) && forall r :: r in up.table.routes <==> r in old(up.table.routes) && r.id != resp.id
      ensures ValidTable(old(up.table)) && !resp.Deleted? && !net(ChangeCall).Lost? ==> up.table == old(up.table)
    {
      var found := LookUp(client, id, net);
      if found.Failure? {
        return found.error;
      }
      if ValidTable(up.table) {
        DeleteIsById(up.table, id.value, net(ChangeCall));
      }
      var a := up.DeleteRoute(id.value, net(ChangeCall));
      return if a.Found? then Deleted(a.route.id) else ReplyTo(a);
    }

    method HandleRequest(who: Option<string>, req: Request, net: Net, draw: nat) returns (resp: Response)
      modifies up`table
      ensures (up.table, resp) == Handle(policy, old(up.table), who, req, up.size, net, draw)
    {
      if who.None? {
        return Unauthenticated;
      }
      if who.value !in policy {
        return NotPermitted;
      }
      var client := policy[who.value];
      match req
      case ListRoutes(_, _, _) => resp := List(client, req, net);
      case CreateRoute(body) => resp := Create(client, body, net, draw);
      case PatchRoute(id, body) => resp := Patch(client, id, body, net);
      case DeleteRoute(id) => resp := Remove(client, id, net);
      case OtherMethod => resp := MethodNotAllowed;
    }
  }

  lemma GatherNext(client: ClientPolicy, t: Table, req: Request, scopes: seq<string>, size: nat, net: Net, i: nat)
    requires req.ListRoutes? && i < |scopes| && Gather(client, t, req, scopes[..i], size, net).Success?
    ensures var pages := PagesFrom(client, Select(TunnelQuery(req, scopes[i]), t.routes), scopes[i], 1, size, net);
      Gather(client, t, req, scopes[..i + 1], size, net) ==
        if pages.Failure? then Failure(())
        else Success(Gather(client, t, req, scopes[..i], size, net).value + pages.value)
  {
    assert scopes[..i + 1][..i] == scopes[..i];
  }

  lemma {:induction false} GatherFails(client: ClientPolicy, t: Table, req: Request, scopes: seq<string>, size: nat,
    net: Net, k: nat)
    requires req.ListRoutes? && k <= |scopes| && Gather(client, t, req, scopes[..k], size, net).Failure?
    ensures Gather(client, t, req, scopes, size, net).Failure?
    decreases |scopes|
  {
    if k == |scopes| {
      assert scopes[..k] == scopes;
    } else {
      assert scopes[..|scopes| - 1][..k] == scopes[..k];
      GatherFails(client, t, req, scopes[..|scopes| - 1], size, net, k);
    }
  }
}
