/**
 Listing a page at a time: the client's loop gathers exactly what a slicing server holds, and stops after
 one page when the server is the broker.
 */
module Pagination {
  import opened Wrappers
  import opened Text
  import opened Sorting
  import opened Routes
  import opened Policy
  import opened PolicyParse
  import opened UpstreamApi
  import opened Broker
  import opened BrokerViews
  import opened BrokerIsolation

  /** A page, the page size and the total the server reports with it; or a failed request. */
  datatype Reported = Reported(batch: seq<Route>, perPage: nat, total: nat)

  type Server = nat -> Result<Reported, ()>

  /** The server never claims more than this many routes. */
  ghost predicate Bounded(serve: Server, bound: nat) {
    forall p: nat :: serve(p).Success? ==> serve(p).value.total <= bound
  }

  predicate Finished(page: nat, r: Reported) {
    r.perPage == 0 || page * r.perPage >= r.total || r.batch == []
  }

  lemma UnfinishedIsEarly(page: nat, r: Reported, bound: nat)
    requires page > 0 && !Finished(page, r) && r.total <= bound
    ensures page < bound
  {
    assert page * r.perPage >= page * 1;
  }

  /** What the loop gathers from this page on. */
  function Collect(serve: Server, page: nat, bound: nat): Result<seq<Route>, ()>
    requires page > 0
    decreases if page < bound then bound - page else 0
  {
    match serve(page)
    case Failure(_) => Failure(())
    case Success(r) =>
      if Finished(page, r) || page >= bound then Success(r.batch)
      else
        match Collect(serve, page + 1, bound)
        case Failure(_) => Failure(())
        case Success(rest) => Success(r.batch + rest)
  }

  /** What has been gathered and what is to come make up the whole. */
  ghost predicate Continues(serve: Server, page: nat, bound: nat, all: seq<Route>)
    requires page > 0
  {
    match Collect(serve, page, bound)
    case Failure(_) => Collect(serve, 1, bound).Failure?
    case Success(rest) => Collect(serve, 1, bound) == Success(all + rest)
  }

  lemma ContinuesNext(serve: Server, page: nat, bound: nat, all: seq<Route>)
    requires page > 0 && Continues(serve, page, bound, all) && serve(page).Success? && Bounded(serve, bound)
    ensures var r := serve(page).value;
      if Finished(page, r) then Collect(serve, 1, bound) == Success(all + r.batch)
      else page < bound && Continues(serve, page + 1, bound, all + r.batch)
  {
    var r := serve(page).value;
    if !Finished(page, r) {
      UnfinishedIsEarly(page, r, bound);
      if Collect(serve, page + 1, bound).Success? {
        var rest := Collect(serve, page + 1, bound).value;
        assert (all + r.batch) + rest == all + (r.batch + rest);
      }
    }
  }

  // The listing, told by the server's pages.

  /** More is to come after this page: it is not empty, and its page size times its number is below the total. */
  predicate More(page: nat, r: Reported) {
    r.batch != [] && r.perPage > 0 && page * r.perPage < r.total
  }

  /** Every page before n arrives and says that more is to come. */
  ghost predicate Reaches(serve: Server, n: nat) {
    forall p: nat :: 0 < p < n ==> serve(p).Success? && More(p, serve(p).value)
  }

  /** The first n pages, one after another. */
  ghost function Pages(serve: Server, n: nat): seq<Route>
    requires forall p: nat :: 0 < p <= n ==> serve(p).Success?
  {
    if n == 0 then [] else Pages(serve, n - 1) + serve(n).value.batch
  }

  /** The listing breaks at this page: it is reached, and it does not arrive. */
  ghost predicate BreaksAt(serve: Server, n: nat) {
    n > 0 && Reaches(serve, n) && serve(n).Failure?
  }

  /** The listing ends with this page: it is reached, it arrives, and nothing more is to come. */
  ghost predicate EndsAt(serve: Server, n: nat) {
    n > 0 && Reaches(serve, n) && serve(n).Success? && !More(n, serve(n).value)
  }

  lemma {:induction false} CollectStops(serve: Server, page: nat, bound: nat) returns (n: nat)
    requires page > 0 && Bounded(serve, bound) && Reaches(serve, page)
    ensures n >= page && (BreaksAt(serve, n) || EndsAt(serve, n))
    ensures BreaksAt(serve, n) ==> Collect(serve, page, bound).Failure?
    ensures EndsAt(serve, n) ==> Collect(serve, page, bound).Success?
    ensures EndsAt(serve, n) ==> Pages(serve, n) == Pages(serve, page - 1) + Collect(serve, page, bound).value
    decreases if page < bound then bound - page else 0
  {
    n := page;
    if serve(page).Success? {
      var r := serve(page).value;
      if More(page, r) {
        UnfinishedIsEarly(page, r, bound);
        n := CollectStops(serve, page + 1, bound);
        if EndsAt(serve, n) {
          var rest := Collect(serve, page + 1, bound).value;
          assert (Pages(serve, page - 1) + r.batch) + rest == Pages(serve, page - 1) + (r.batch + rest);
        }
      }
    }
  }

  lemma OneStop(serve: Server, m: nat, n: nat)
    requires BreaksAt(serve, m) || EndsAt(serve, m)
    requires BreaksAt(serve, n) || EndsAt(serve, n)
    ensures m == n
  {
  }

  /** A page that is reached and does not arrive fails the listing; else it is the pages up to the last one. */
  lemma CollectExact(serve: Server, bound: nat)
    requires Bounded(serve, bound)
    ensures Collect(serve, 1, bound).Failure? <==> exists n: nat :: BreaksAt(serve, n)
    ensures forall n: nat :: EndsAt(serve, n) ==> Collect(serve, 1, bound) == Success(Pages(serve, n))
  {
    var n := CollectStops(serve, 1, bound);
    forall m: nat | BreaksAt(serve, m) || EndsAt(serve, m)
      ensures m == n
    {
      OneStop(serve, m, n);
    }
    if EndsAt(serve, n) {
      assert Pages(serve, n) == [] + Collect(serve, 1, bound).value == Collect(serve, 1, bound).value;
      assert Collect(serve, 1, bound) == Success(Pages(serve, n));
    } else {
      assert BreaksAt(serve, n);
    }
  }

  /** Asks for page after page; one failed request fails the whole listing. */
  method ListHostnameRoutes(serve: Server, ghost bound: nat) returns (r: Result<seq<Route>, ()>)
    requires Bounded(serve, bound)
    ensures r.Failure? <==> exists n: nat :: BreaksAt(serve, n)
    ensures forall n: nat :: EndsAt(serve, n) ==> r == Success(Pages(serve, n))
    ensures r == Collect(serve, 1, bound)
  {
    CollectExact(serve, bound);
    var all: seq<Route> := [];
    var page := 1;
    assert Collect(serve, 1, bound).Success? ==> [] + Collect(serve, 1, bound).value == Collect(serve, 1, bound).value;
    while true
      invariant page > 0 && Continues(serve, page, bound, all)
      decreases if page < bound then bound - page else 0
    {
      var resp := serve(page);
      if resp.Failure? {
        return Failure(());
      }
      ContinuesNext(serve, page, bound, all);
      all := all + resp.value.batch;
      if Finished(page, resp.value) {
        return Success(all);
      }
      page := page + 1;
    }
  }

  // A server that slices a fixed list.

  ghost predicate Slices(serve: Server, xs: seq<Route>, size: nat) {
    forall p: nat :: p > 0 ==> serve(p).Failure? || serve(p).value == Reported(PageOf(xs, p, size), size, |xs|)
  }

  lemma SliceStep<T>(xs: seq<T>, page: nat, size: nat)
    requires page > 0
    ensures xs[Min((page - 1) * size, |xs|)..] == PageOf(xs, page, size) + xs[Min(page * size, |xs|)..]
  {
    assert page * size == (page - 1) * size + size;
  }

  /** A page that begins inside the list is not empty. */
  lemma PageNonEmpty<T>(xs: seq<T>, page: nat, size: nat)
    requires page > 0 && size > 0
    ensures (page - 1) * size < |xs| ==> PageOf(xs, page, size) != []
    ensures (page == 1 || (page - 1) * size < |xs|) && PageOf(xs, page, size) == [] ==> |xs| <= page * size
  {
  }

  /** From any page on, the loop gathers the rest of the list. */
  lemma {:induction false} CollectsRest(serve: Server, xs: seq<Route>, size: nat, page: nat, from: nat)
    requires size > 0 && page > 0 && Slices(serve, xs, size) && (forall p: nat :: p > 0 ==> serve(p).Success?)
    requires from == (page - 1) * size && (page == 1 || from < |xs|) && from <= |xs|
    ensures Collect(serve, page, |xs|) == Success(xs[from..])
    decreases if page < |xs| then |xs| - page else 0
  {
    var r := serve(page).value;
    assert r == Reported(PageOf(xs, page, size), size, |xs|);
    SliceStep(xs, page, size);
    PageNonEmpty(xs, page, size);
    if Finished(page, r) {
      assert xs[Min(page * size, |xs|)..] == [];
      assert r.batch + [] == r.batch;
    } else {
      UnfinishedIsEarly(page, r, |xs|);
      CollectsRest(serve, xs, size, page + 1, page * size);
    }
  }

  lemma CollectsAll(serve: Server, xs: seq<Route>, size: nat, page: nat)
    requires size > 0 && page == 1 && Slices(serve, xs, size) && (forall p: nat :: p > 0 ==> serve(p).Success?)
    ensures Collect(serve, page, |xs|) == Success(xs)
  {
    assert (page - 1) * size == 0;
    CollectsRest(serve, xs, size, page, 0);
    assert xs[0..] == xs;
  }

  /** Against such a server the client gets exactly the list, once, in order. */
  lemma PaginationComplete(serve: Server, xs: seq<Route>, size: nat)
    requires size > 0 && Slices(serve, xs, size) && (forall p: nat :: p > 0 ==> serve(p).Success?)
    ensures Collect(serve, 1, |xs|) == Success(xs)
  {
    CollectsAll(serve, xs, size, 1);
  }

  // The broker's own page loop, and the client behind it.

  /** The pages of this tunnel the broker asks for: the first, and each that begins within the list and the cap. */
  predicate AsksPage(xs: seq<Route>, size: nat, p: nat) {
    0 < p <= 100 && (p == 1 || (p - 1) * size < |xs|)
  }

  ghost predicate Broken(xs: seq<Route>, tunnel: string, size: nat, net: Net) {
    exists p: nat :: AsksPage(xs, size, p) && !net(PageCall(tunnel, p)).Works?
  }

  /** What is left of the list, up to the cap. */
  function UpTo(xs: seq<Route>, from: nat, cap: nat): seq<Route> {
    if from <= Min(cap, |xs|) then xs[from..Min(cap, |xs|)] else []
  }

  /** One page and what is left after it. */
  lemma UpToNext(xs: seq<Route>, page: nat, size: nat, from: nat, cap: nat)
    requires size > 0 && page > 0 && from == (page - 1) * size && (page == 1 || from < |xs|) && from <= |xs|
    requires page * size <= cap
    ensures page * size == from + size
    ensures if LastPage(PageOf(xs, page, size), page, size, |xs|) then UpTo(xs, from, cap) == PageOf(xs, page, size)
      else page * size < |xs| && UpTo(xs, from, cap) == PageOf(xs, page, size) + UpTo(xs, page * size, cap)
  {
    PageNonEmpty(xs, page, size);
    assert PageOf(xs, page, size) == xs[from..Min(from + size, |xs|)];
  }

  lemma CapAhead(page: nat, size: nat)
    requires page <= MAX_UPSTREAM_PAGES
    ensures page * size <= MAX_UPSTREAM_PAGES * size
  {
  }

  /** What the loop does with one page, none of whose routes it drops. */
  lemma PagesStep(client: ClientPolicy, xs: seq<Route>, tunnel: string, page: nat, size: nat, net: Net)
    requires 0 < page <= MAX_UPSTREAM_PAGES && (forall r :: r in xs ==> OnTunnels(client, r))
    requires net(PageCall(tunnel, page)).Works?
    ensures var batch := PageOf(xs, page, size);
      if LastPage(batch, page, size, |xs|) then PagesFrom(client, xs, tunnel, page, size, net) == Success(batch)
      else PagesFrom(client, xs, tunnel, page + 1, size, net).Success? ==>
        PagesFrom(client, xs, tunnel, page, size, net) ==
          Success(batch + PagesFrom(client, xs, tunnel, page + 1, size, net).value)
  {
    assert forall r :: r in PageOf(xs, page, size) ==> r in xs;
    assert Allowed(client, PageOf(xs, page, size)) == PageOf(xs, page, size);
  }

  /** The broker's loop gathers a tunnel's listing up to its cap. */
  lemma {:induction false} PagesRest(client: ClientPolicy, xs: seq<Route>, tunnel: string, page: nat, size: nat,
    net: Net, from: nat)
    requires size > 0 && 0 < page <= MAX_UPSTREAM_PAGES + 1 && (forall r :: r in xs ==> OnTunnels(client, r))
    requires !Broken(xs, tunnel, size, net)
    requires from == (page - 1) * size && (page == 1 || from < |xs|) && from <= |xs|
    ensures PagesFrom(client, xs, tunnel, page, size, net) == Success(UpTo(xs, from, MAX_UPSTREAM_PAGES * size))
    decreases MAX_UPSTREAM_PAGES + 1 - page
  {
    if page <= MAX_UPSTREAM_PAGES {
      assert AsksPage(xs, size, page);
      CapAhead(page, size);
      UpToNext(xs, page, size, from, MAX_UPSTREAM_PAGES * size);
      PagesStep(client, xs, tunnel, page, size, net);
      if !LastPage(PageOf(xs, page, size), page, size, |xs|) {
        PagesRest(client, xs, tunnel, page + 1, size, net, page * size);
      }
    } else {
      assert UpTo(xs, from, MAX_UPSTREAM_PAGES * size) == [];
    }
  }

  /** No tunnel of the client holds more than the broker will page through. */
  ghost predicate WithinCap(t: Table, req: Request, scopes: seq<string>, size: nat)
    requires req.ListRoutes?
  {
    forall i :: 0 <= i < |scopes| ==> |Select(TunnelQuery(req, scopes[i]), t.routes)| <= MAX_UPSTREAM_PAGES * size
  }

  /** The listings of these tunnels, one after another. */
  function Listings(t: Table, req: Request, scopes: seq<string>): seq<Route>
    requires req.ListRoutes?
  {
    if scopes == [] then []
    else Listings(t, req, scopes[..|scopes| - 1]) + Select(TunnelQuery(req, scopes[|scopes| - 1]), t.routes)
  }

  lemma OneTunnel(client: ClientPolicy, t: Table, req: Request, tunnel: string, size: nat, net: Net)
    requires req.ListRoutes? && size > 0 && tunnel in Mine(client)
    requires !Broken(Select(TunnelQuery(req, tunnel), t.routes), tunnel, size, net)
    requires |Select(TunnelQuery(req, tunnel), t.routes)| <= MAX_UPSTREAM_PAGES * size
    ensures PagesFrom(client, Select(TunnelQuery(req, tunnel), t.routes), tunnel, 1, size, net) ==
      Success(Select(TunnelQuery(req, tunnel), t.routes))
  {
    var xs, cap := Select(TunnelQuery(req, tunnel), t.routes), MAX_UPSTREAM_PAGES * size;
    OneTunnelFrom(client, xs, tunnel, 1, size, net);
    assert xs[0..|xs|] == xs && UpTo(xs, 0, cap) == xs;
  }

  lemma OneTunnelFrom(client: ClientPolicy, xs: seq<Route>, tunnel: string, page: nat, size: nat, net: Net)
    requires size > 0 && page == 1 && (forall r :: r in xs ==> OnTunnels(client, r))
    requires !Broken(xs, tunnel, size, net)
    ensures PagesFrom(client, xs, tunnel, page, size, net) == Success(UpTo(xs, 0, MAX_UPSTREAM_PAGES * size))
  {
    assert (page - 1) * size == 0;
    PagesRest(client, xs, tunnel, page, size, net, 0);
  }

  /** The page cap is the only thing that shortens a tunnel's listing. */
  lemma CapIsExact(client: ClientPolicy, xs: seq<Route>, tunnel: string, size: nat, net: Net)
    requires size > 0 && (forall r :: r in xs ==> OnTunnels(client, r)) && !Broken(xs, tunnel, size, net)
    ensures PagesFrom(client, xs, tunnel, 1, size, net) == Success(xs) <==> |xs| <= MAX_UPSTREAM_PAGES * size
  {
    OneTunnelFrom(client, xs, tunnel, 1, size, net);
    var cap := MAX_UPSTREAM_PAGES * size;
    assert |UpTo(xs, 0, cap)| == Min(cap, |xs|);
    assert |xs| <= cap ==> UpTo(xs, 0, cap) == xs;
  }

  /** Where the page after this one begins, and that no page begins earlier. */
  lemma NextBegins(page: nat, p: nat, size: nat)
    requires 0 < page < p
    ensures page * size == (page - 1) * size + size
    ensures (p - 1) * size >= page * size
  {
  }

  /** A page before one that is asked for is not the last. */
  lemma NotLast(xs: seq<Route>, page: nat, p: nat, size: nat)
    requires size > 0 && 0 < page < p && AsksPage(xs, size, p)
    ensures !LastPage(PageOf(xs, page, size), page, size, |xs|)
  {
    NextBegins(page, p, size);
    PageNonEmpty(xs, page, size);
  }

  /** A page that is asked for and fails, fails every listing that reaches it. */
  lemma {:induction false} BrokenPage(client: ClientPolicy, xs: seq<Route>, tunnel: string, page: nat, size: nat,
    net: Net, p: nat)
    requires size > 0 && 0 < page <= p && AsksPage(xs, size, p) && !net(PageCall(tunnel, p)).Works?
    ensures PagesFrom(client, xs, tunnel, page, size, net).Failure?
    decreases MAX_UPSTREAM_PAGES + 1 - page
  {
    if page < p && net(PageCall(tunnel, page)).Works? {
      NotLast(xs, page, p, size);
      BrokenPage(client, xs, tunnel, page + 1, size, net, p);
    }
  }

  /** A listing that fails has asked for a page that failed. */
  lemma {:induction false} PageBroke(client: ClientPolicy, xs: seq<Route>, tunnel: string, page: nat, size: nat,
    net: Net) returns (p: nat)
    requires size > 0 && 0 < page && (page == 1 || (page - 1) * size < |xs|)
    requires PagesFrom(client, xs, tunnel, page, size, net).Failure?
    ensures AsksPage(xs, size, p) && !net(PageCall(tunnel, p)).Works?
    decreases MAX_UPSTREAM_PAGES + 1 - page
  {
    p := page;
    if net(PageCall(tunnel, page)).Works? {
      p := PageBroke(client, xs, tunnel, page + 1, size, net);
    }
  }

  /** One failed page of a tunnel fails its listing, and nothing else does. */
  lemma OnePageFails(client: ClientPolicy, xs: seq<Route>, tunnel: string, size: nat, net: Net)
    requires size > 0
    ensures PagesFrom(client, xs, tunnel, 1, size, net).Failure? <==> Broken(xs, tunnel, size, net)
  {
    if PagesFrom(client, xs, tunnel, 1, size, net).Failure? {
      var p := PageBroke(client, xs, tunnel, 1, size, net);
    }
    forall p: nat | AsksPage(xs, size, p) && !net(PageCall(tunnel, p)).Works?
      ensures PagesFrom(client, xs, tunnel, 1, size, net).Failure?
    {
      BrokenPage(client, xs, tunnel, 1, size, net, p);
    }
  }

  lemma {:induction false} GatherExact(client: ClientPolicy, t: Table, req: Request, scopes: seq<string>, size: nat,
    net: Net)
    requires req.ListRoutes? && size > 0 && WithinCap(t, req, scopes, size)
    requires forall tunnel, p: nat :: net(PageCall(tunnel, p)).Works?
    requires forall i :: 0 <= i < |scopes| ==> scopes[i] in Mine(client)
    ensures Gather(client, t, req, scopes, size, net) == Success(Listings(t, req, scopes))
    decreases |scopes|
  {
    if scopes != [] {
      var front := scopes[..|scopes| - 1];
      assert forall i :: 0 <= i < |front| ==> front[i] == scopes[i];
      GatherExact(client, t, req, front, size, net);
      OneTunnel(client, t, req, scopes[|scopes| - 1], size, net);
    }
  }

  lemma {:induction false} SelectDistinct(q: Query, rs: seq<Route>)
    requires EachOnce(rs)
    ensures EachOnce(Select(q, rs))
  {
    if rs != [] {
      var front, last := rs[..|rs| - 1], rs[|rs| - 1];
      assert rs == front + [last];
      SelectDistinct(q, front);
      forall r | r in Select(q, front)
        ensures r.id != last.id
      {
        var j :| 0 <= j < |front| && front[j] == r;
      }
    }
  }

  /** Every route on the tunnels once, and nothing else. */
  lemma {:induction false} ListingsExact(t: Table, req: Request, scopes: seq<string>)
    requires req.ListRoutes? && ValidTable(t) && Distinct(scopes)
    ensures forall r :: r in Listings(t, req, scopes) <==>
      r in t.routes && r.tunnel in scopes && Fits(Query(None, req.hostname, req.comment), r)
    ensures EachOnce(Listings(t, req, scopes))
    decreases |scopes|
  {
    if scopes != [] {
      var front, tunnel := scopes[..|scopes| - 1], scopes[|scopes| - 1];
      assert scopes == front + [tunnel] && tunnel !in front;
      ListingsExact(t, req, front);
      var before, more := Listings(t, req, front), Select(TunnelQuery(req, tunnel), t.routes);
      SelectDistinct(TunnelQuery(req, tunnel), t.routes);
      forall i, j | 0 <= i < |before| && 0 <= j < |more|
        ensures before[i].id != more[j].id
      {
        assert before[i] in before && more[j] in more;
        SameIdSameRoute(t, before[i], more[j]);
      }
    }
  }

  lemma SameIdSameRoute(t: Table, a: Route, b: Route)
    requires ValidTable(t) && a in t.routes && b in t.routes
    ensures a.id == b.id ==> a == b
  {
    var i :| 0 <= i < |t.routes| && t.routes[i] == a;
    var j :| 0 <= j < |t.routes| && t.routes[j] == b;
  }

  /** What the client asks of the list, besides the tunnel. */
  predicate Wanted(r: Route, hostname: Option<string>, comment: Option<string>) {
    (hostname.Some? ==> r.hostname == hostname.value) && (comment.Some? ==> r.comment == comment.value)
  }

  /** These are the routes of one tunnel that are asked for, each once. */
  ghost predicate ExactlyOn(t: Table, tunnel: string, hostname: Option<string>, comment: Option<string>,
    rs: seq<Route>)
  {
    EachOnce(rs) && forall r :: r in rs <==> r in t.routes && r.tunnel == tunnel && Wanted(r, hostname, comment)
  }

  lemma AskedTunnelIsMine(client: ClientPolicy, tunnel: string)
    requires Lower(TrimSpace(tunnel)) in client.tunnels
    ensures Lower(TrimSpace(tunnel)) in Mine(client)
  {
    CanonicalOnce(tunnel);
  }

  lemma OneScope(client: ClientPolicy, t: Table, req: Request, scopes: seq<string>, tunnel: string, size: nat, net: Net)
    requires req.ListRoutes? && scopes == [tunnel]
    ensures Gather(client, t, req, scopes, size, net) ==
      PagesFrom(client, Select(TunnelQuery(req, tunnel), t.routes), tunnel, 1, size, net)
  {
    var pages := PagesFrom(client, Select(TunnelQuery(req, tunnel), t.routes), tunnel, 1, size, net);
    assert scopes[..0] == [];
    assert pages.Success? ==> [] + pages.value == pages.value;
  }

  /**
   With a tunnel asked for, in whatever spelling: the list is refused if the tunnel is not the client's, fails
   if a page it asks for fails, and else holds exactly that tunnel's routes that are asked for, each once, as
   long as they do not exceed the broker's cap.
   */
  lemma ListNamedTunnel(client: ClientPolicy, t: Table, tunnel: string, hostname: Option<string>,
    comment: Option<string>, size: nat, net: Net, xs: seq<Route>)
    requires ValidTable(t) && size > 0 && ExactlyOn(t, Lower(TrimSpace(tunnel)), hostname, comment, xs)
    ensures var mine := Lower(TrimSpace(tunnel));
      var resp := ListReply(client, t, ListRoutes(Some(tunnel), hostname, comment), size, net);
      && (mine !in client.tunnels ==> resp == Denied)
      && (mine in client.tunnels ==>
            && (resp == UpstreamFailed <==> Broken(xs, mine, size, net))
            && (resp.Listed? <==> !Broken(xs, mine, size, net)))
      && (mine in client.tunnels && !Broken(xs, mine, size, net) && |xs| <= 100 * size ==>
            ExactlyOn(t, mine, hostname, comment, resp.routes))
  {
    var mine, req := Lower(TrimSpace(tunnel)), ListRoutes(Some(tunnel), hostname, comment);
    var found := Select(TunnelQuery(req, mine), t.routes);
    SelectDistinct(TunnelQuery(req, mine), t.routes);
    SameSize(found, xs);
    if mine in client.tunnels {
      AskedTunnelIsMine(client, tunnel);
      OneScope(client, t, req, [mine], mine, size, net);
      OnePageFails(client, found, mine, size, net);
      if !Broken(found, mine, size, net) && |xs| <= MAX_UPSTREAM_PAGES * size {
        OneTunnel(client, t, req, mine, size, net);
      }
    }
  }

  lemma {:induction false} GatherBreaks(client: ClientPolicy, t: Table, req: Request, scopes: seq<string>, size: nat,
    net: Net)
    requires req.ListRoutes? && size > 0
    ensures Gather(client, t, req, scopes, size, net).Failure? <==>
      exists i :: 0 <= i < |scopes| && Broken(Select(TunnelQuery(req, scopes[i]), t.routes), scopes[i], size, net)
    decreases |scopes|
  {
    if scopes != [] {
      var front, tunnel := scopes[..|scopes| - 1], scopes[|scopes| - 1];
      GatherBreaks(client, t, req, front, size, net);
      OnePageFails(client, Select(TunnelQuery(req, tunnel), t.routes), tunnel, size, net);
      assert forall i :: 0 <= i < |front| ==> front[i] == scopes[i];
    }
  }

  /** Some page of some tunnel of the client's does not arrive. */
  ghost predicate SomeBroken(client: ClientPolicy, t: Table, hostname: Option<string>, comment: Option<string>,
    size: nat, net: Net)
  {
    exists i :: 0 <= i < |client.tunnels| &&
      Broken(Select(Query(Some(client.tunnels[i]), hostname, comment), t.routes), client.tunnels[i], size, net)
  }

  /** With no tunnel asked for, the list fails exactly when a page it asks for on one of the client's tunnels fails. */
  lemma ListAllFails(client: ClientPolicy, t: Table, hostname: Option<string>, comment: Option<string>, size: nat,
    net: Net)
    requires size > 0
    ensures var resp := ListReply(client, t, ListRoutes(None, hostname, comment), size, net);
      && (resp == UpstreamFailed <==> SomeBroken(client, t, hostname, comment, size, net))
      && (resp.Listed? <==> !SomeBroken(client, t, hostname, comment, size, net))
  {
    GatherBreaks(client, t, ListRoutes(None, hostname, comment), client.tunnels, size, net);
  }

  lemma {:induction false} BagOfOnce(rs: seq<Route>)
    requires EachOnce(rs)
    ensures |set r | r in rs| == |rs|
    decreases |rs|
  {
    var all := set r | r in rs;
    if rs == [] {
      assert all == {};
    } else {
      var front, last := rs[..|rs| - 1], rs[|rs| - 1];
      assert rs == front + [last];
      BagOfOnce(front);
      assert last !in front;
      assert all == (set r | r in front) + {last};
    }
  }

  /** Two listings of the same routes, each once, are equally long. */
  lemma SameSize(a: seq<Route>, b: seq<Route>)
    requires EachOnce(a) && EachOnce(b) && forall r :: r in a <==> r in b
    ensures |a| == |b|
  {
    BagOfOnce(a);
    BagOfOnce(b);
    assert (set r | r in a) == (set r | r in b);
  }

  /** The broker answers every page request with one page that holds everything. */
  ghost predicate AnswersWhole(serve: Server, rs: seq<Route>) {
    forall p: nat :: serve(p) == Success(Reported(rs, if |rs| > 100 then |rs| else 100, |rs|))
  }

  /**
   Behind the broker the client's listing is one request, and holds precisely the routes on the tunnels
   its policy names, each once, as long as no tunnel exceeds the broker's cap.
   */
  lemma ListThroughBroker(client: ClientPolicy, t: Table, size: nat, net: Net, serve: Server, bound: nat)
    requires Canonical(client) && ValidTable(t) && size > 0
    requires forall tunnel, p: nat :: net(PageCall(tunnel, p)).Works?
    requires WithinCap(t, ListRoutes(None, None, None), client.tunnels, size)
    requires ListReply(client, t, ListRoutes(None, None, None), size, net).Listed? ==>
      AnswersWhole(serve, ListReply(client, t, ListRoutes(None, None, None), size, net).routes)
    ensures ListReply(client, t, ListRoutes(None, None, None), size, net).Listed?
    ensures var rs := ListReply(client, t, ListRoutes(None, None, None), size, net).routes;
      && Collect(serve, 1, bound) == Success(rs) && Finished(1, serve(1).value)
      && (forall r :: r in rs <==> r in t.routes && r.tunnel in client.tunnels) && EachOnce(rs)
  {
    var req := ListRoutes(None, None, None);
    ScopesAreMine(client, None);
    GatherExact(client, t, req, client.tunnels, size, net);
    ListingsExact(t, req, client.tunnels);
  }
}
