/**
 What the broker tells a client over a whole run: a function of the client's own routes, of its own
 requests, and of one bit for each name it asks for. Nothing else other clients do shows.
 */
module BrokerSecrecy {
  import opened Wrappers
  import opened Routes
  import opened Policy
  import opened PolicyParse
  import opened UpstreamApi
  import opened Broker
  import opened BrokerViews
  import opened BrokerIsolation

  /** The name a request asks the account for, as it would be stored. */
  function Asked(req: Request): Option<string> {
    match req
    case CreateRoute(Some(b)) => AskedBy(b)
    case PatchRoute(_, Some(b)) => AskedBy(b)
    case _ => None
  }

  function AskedBy(b: Body): Option<string> {
    if b.hostname.Str? then Some(StoredName(b.hostname.s)) else None
  }

  /** The one bit: whether the name asked for is taken. */
  predicate Bit(t: Table, req: Request) {
    match Asked(req)
    case None => false
    case Some(name) => Held(t.routes, name)
  }

  ghost predicate SameMine(mine: iset<string>, a: Table, b: Table) {
    Keep(mine, a.routes) == Keep(mine, b.routes)
  }

  lemma PostTells(mine: iset<string>, a: Table, b: Table, id: nat, hostname: string, tunnel: string, comment: string,
    reply: Reply)
    requires SameMine(mine, a, b) && tunnel in mine
    requires Held(a.routes, StoredName(hostname)) <==> Held(b.routes, StoredName(hostname))
    ensures PostTo(a, id, hostname, tunnel, comment, reply).1 == PostTo(b, id, hostname, tunnel, comment, reply).1
    ensures SameMine(mine, PostTo(a, id, hostname, tunnel, comment, reply).0,
      PostTo(b, id, hostname, tunnel, comment, reply).0)
  {
    PostView(mine, a, id, hostname, tunnel, comment, reply);
    PostView(mine, b, id, hostname, tunnel, comment, reply);
  }

  lemma CreateTells(client: ClientPolicy, a: Table, b: Table, body: Option<Body>, net: Net, draw: nat)
    requires SameMine(Mine(client), a, b) && Bit(a, CreateRoute(body)) == Bit(b, CreateRoute(body))
    ensures CreateStep(client, a, body, net, draw).1 == CreateStep(client, b, body, net, draw).1
    ensures SameMine(Mine(client), CreateStep(client, a, body, net, draw).0, CreateStep(client, b, body, net, draw).0)
  {
    if body.Some? && MayCreate(client, body.value) {
      var v := body.value;
      PostTells(Mine(client), a, b, draw, v.hostname.s, v.tunnel.s, CommentOf(v.comment), net(ChangeCall));
    }
  }

  lemma PatchedTells(mine: iset<string>, a: Table, b: Table, id: nat, e: Edit, reply: Reply, r: Route)
    requires ValidTable(a) && ValidTable(b) && SameMine(mine, a, b)
    requires FindMine(mine, a, id) == Some(r) == FindMine(mine, b, id) && Edited(r, e).tunnel in mine
    requires e.hostname.Some? ==>
      (Held(a.routes, StoredName(e.hostname.value)) <==> Held(b.routes, StoredName(e.hostname.value)))
    ensures PatchAt(a, id, e, reply).1 == PatchAt(b, id, e, reply).1
    ensures SameMine(mine, PatchAt(a, id, e, reply).0, PatchAt(b, id, e, reply).0)
  {
    PatchView(mine, a, id, e, reply, r);
    PatchView(mine, b, id, e, reply, r);
  }

  lemma PatchBit(t: Table, id: nat, body: Body)
    ensures var name := EditOf(body).hostname;
      Bit(t, PatchRoute(Some(id), Some(body))) <==> name.Some? && Held(t.routes, StoredName(name.value))
  {
  }

  lemma EditedIsMine(client: ClientPolicy, t: Table, id: nat, body: Body, r: Route)
    requires ValidTable(t) && FindMine(Mine(client), t, id) == Some(r) && MayPatch(client, body)
    ensures Edited(r, EditOf(body)).tunnel in Mine(client)
  {
    FindMineAt(Mine(client), t, id, r);
    PatchStaysMine(client, r, body);
  }

  lemma PatchTells(client: ClientPolicy, a: Table, b: Table, id: nat, body: Body, net: Net, r: Route)
    requires ValidTable(a) && ValidTable(b) && SameMine(Mine(client), a, b)
    requires FindMine(Mine(client), a, id) == Some(r)
    requires Bit(a, PatchRoute(Some(id), Some(body))) == Bit(b, PatchRoute(Some(id), Some(body)))
    ensures PatchStep(client, a, id, body, net).1 == PatchStep(client, b, id, body, net).1
    ensures SameMine(Mine(client), PatchStep(client, a, id, body, net).0, PatchStep(client, b, id, body, net).0)
  {
    if MayPatch(client, body) {
      FindMineAgrees(Mine(client), a, b, id);
      EditedIsMine(client, a, id, body, r);
      PatchBit(a, id, body);
      PatchBit(b, id, body);
      PatchedTells(Mine(client), a, b, id, EditOf(body), net(ChangeCall), r);
    }
  }

  lemma DeleteTells(client: ClientPolicy, a: Table, b: Table, id: nat, net: Net, r: Route)
    requires ValidTable(a) && ValidTable(b) && SameMine(Mine(client), a, b) && FindMine(Mine(client), a, id) == Some(r)
    ensures DeleteStep(a, id, net).1 == DeleteStep(b, id, net).1
    ensures SameMine(Mine(client), DeleteStep(a, id, net).0, DeleteStep(b, id, net).0)
  {
    FindMineAgrees(Mine(client), a, b, id);
    DeleteView(Mine(client), a, id, net(ChangeCall), r);
    DeleteView(Mine(client), b, id, net(ChangeCall), r);
  }

  /** One request tells a client about others at most whether the one name it asks for is taken. */
  lemma OneBitTold(client: ClientPolicy, a: Table, b: Table, req: Request, size: nat, net: Net, draw: nat)
    requires Canonical(client) && ValidTable(a) && ValidTable(b) && SameMine(Mine(client), a, b)
    requires Bit(a, req) == Bit(b, req)
    ensures Serve(client, a, req, size, net, draw).1 == Serve(client, b, req, size, net, draw).1
    ensures SameMine(Mine(client), Serve(client, a, req, size, net, draw).0, Serve(client, b, req, size, net, draw).0)
  {
    match req
    case ListRoutes(_, _, _) => ListAgrees(client, a, b, req, size, net);
    case CreateRoute(body) => CreateTells(client, a, b, body, net, draw);
    case PatchRoute(id, body) =>
      LookUpAgrees(client, a, b, id, net);
      if body.Some? && OwnRoute(client, a, id, net).Success? {
        LookUpFinds(client, a, id, net);
        PatchTells(client, a, b, id.value, body.value, net, OwnRoute(client, a, id, net).value);
      }
    case DeleteRoute(id) =>
      LookUpAgrees(client, a, b, id, net);
      if OwnRoute(client, a, id, net).Success? {
        LookUpFinds(client, a, id, net);
        DeleteTells(client, a, b, id.value, net, OwnRoute(client, a, id, net).value);
      }
    case OtherMethod =>
  }

  /** That one bit is told: a create that is allowed and gets through learns exactly whether its name is taken. */
  lemma BitIsTold(client: ClientPolicy, t: Table, b: Body, size: nat, net: Net, draw: nat)
    requires MayCreate(client, b) && net(ChangeCall).Works?
    ensures Serve(client, t, CreateRoute(Some(b)), size, net, draw).1 == AlreadyRouted <==> Bit(t, CreateRoute(Some(b)))
  {
    PostView(Mine(client), t, draw, b.hostname.s, b.tunnel.s, CommentOf(b.comment), net(ChangeCall));
  }

  // Whole runs.

  /** A request, the network it meets, and the id a create would be given. */
  datatype Ask = Ask(who: Option<string>, req: Request, net: Net, draw: nat)

  function Served(policy: Clients, t: Table, x: Ask, size: nat): (Table, Response) {
    Handle(policy, t, x.who, x.req, size, x.net, x.draw)
  }

  function After(policy: Clients, t: Table, xs: seq<Ask>, size: nat): Table
    decreases |xs|
  {
    if xs == [] then t else After(policy, Served(policy, t, xs[0], size).0, xs[1..], size)
  }

  /** Ids are never drawn twice. */
  predicate DrawsFresh(policy: Clients, t: Table, xs: seq<Ask>, size: nat)
    decreases |xs|
  {
    xs == [] || (xs[0].draw >= t.next && DrawsFresh(policy, Served(policy, t, xs[0], size).0, xs[1..], size))
  }

  /** What the client itself asks. */
  function AsksOf(c: string, xs: seq<Ask>): seq<Ask> {
    if xs == [] then [] else (if xs[0].who == Some(c) then [xs[0]] else []) + AsksOf(c, xs[1..])
  }

  /** What the client is answered. */
  function Told(policy: Clients, t: Table, c: string, xs: seq<Ask>, size: nat): seq<Response>
    decreases |xs|
  {
    if xs == [] then []
    else
      var (t', answer) := Served(policy, t, xs[0], size);
      (if xs[0].who == Some(c) then [answer] else []) + Told(policy, t', c, xs[1..], size)
  }

  /** Whether the names it asks for are taken when it asks. */
  function Bits(policy: Clients, t: Table, c: string, xs: seq<Ask>, size: nat): seq<bool>
    decreases |xs|
  {
    if xs == [] then []
    else
      (if xs[0].who == Some(c) then [Bit(t, xs[0].req)] else [])
      + Bits(policy, Served(policy, t, xs[0], size).0, c, xs[1..], size)
  }

  lemma ServedKeeps(policy: Clients, t: Table, x: Ask, size: nat)
    requires ValidTable(t) && x.draw >= t.next
    ensures ValidTable(Served(policy, t, x, size).0)
  {
    if x.who.Some? && x.who.value in policy {
      match x.req
      case CreateRoute(Some(b)) =>
        if MayCreate(policy[x.who.value], b) {
          PostKeeps(t, x.draw, b.hostname.s, b.tunnel.s, CommentOf(b.comment), x.net(ChangeCall));
        }
      case PatchRoute(Some(id), Some(b)) => PatchKeeps(t, id, EditOf(b), x.net(ChangeCall));
      case DeleteRoute(Some(id)) => DeleteKeeps(t, id, x.net(ChangeCall));
      case _ =>
    }
  }

  lemma HeadsAndTails<T>(x: T, s: seq<T>, y: T, t: seq<T>)
    requires [x] + s == [y] + t
    ensures x == y && s == t
  {
    assert ([x] + s)[0] == x && ([y] + t)[0] == y;
    assert ([x] + s)[1..] == s && ([y] + t)[1..] == t;
  }

  /** Two runs of which the client may be told different things only through the names it asks for. */
  ghost predicate AlikeTo(policy: Clients, c: string, a: Table, xs: seq<Ask>, b: Table, ys: seq<Ask>, size: nat) {
    && WellDivided(policy) && c in policy && SameMine(Mine(policy[c]), a, b)
    && ValidTable(a) && DrawsFresh(policy, a, xs, size) && ValidTable(b) && DrawsFresh(policy, b, ys, size)
    && AsksOf(c, xs) == AsksOf(c, ys) && Bits(policy, a, c, xs, size) == Bits(policy, b, c, ys, size)
  }

  lemma SkipForeign(policy: Clients, c: string, a: Table, xs: seq<Ask>, b: Table, ys: seq<Ask>, size: nat)
    requires AlikeTo(policy, c, a, xs, b, ys, size) && xs != [] && xs[0].who != Some(c)
    ensures AlikeTo(policy, c, Served(policy, a, xs[0], size).0, xs[1..], b, ys, size)
    ensures Told(policy, a, c, xs, size) == Told(policy, Served(policy, a, xs[0], size).0, c, xs[1..], size)
  {
    var x, a' := xs[0], Served(policy, a, xs[0], size).0;
    ServedKeeps(policy, a, x, size);
    OthersKeepView(policy, a, c, x.who, x.req, size, x.net, x.draw);
    assert [] + AsksOf(c, xs[1..]) == AsksOf(c, xs[1..]);
    assert [] + Bits(policy, a', c, xs[1..], size) == Bits(policy, a', c, xs[1..], size);
    assert [] + Told(policy, a', c, xs[1..], size) == Told(policy, a', c, xs[1..], size);
  }

  lemma AlikeTurned(policy: Clients, c: string, a: Table, xs: seq<Ask>, b: Table, ys: seq<Ask>, size: nat)
    requires AlikeTo(policy, c, a, xs, b, ys, size)
    ensures AlikeTo(policy, c, b, ys, a, xs, size)
  {
  }

  lemma AskTogether(policy: Clients, c: string, a: Table, xs: seq<Ask>, b: Table, ys: seq<Ask>, size: nat)
    requires AlikeTo(policy, c, a, xs, b, ys, size)
    requires xs != [] && ys != [] && xs[0].who == Some(c) && ys[0].who == Some(c)
    ensures Served(policy, a, xs[0], size).1 == Served(policy, b, ys[0], size).1
    ensures AlikeTo(policy, c, Served(policy, a, xs[0], size).0, xs[1..], Served(policy, b, ys[0], size).0, ys[1..],
      size)
  {
    var x, y := xs[0], ys[0];
    HeadsAndTails(x, AsksOf(c, xs[1..]), y, AsksOf(c, ys[1..]));
    HeadsAndTails(Bit(a, x.req), Bits(policy, Served(policy, a, x, size).0, c, xs[1..], size),
      Bit(b, y.req), Bits(policy, Served(policy, b, y, size).0, c, ys[1..], size));
    ServedKeeps(policy, a, x, size);
    ServedKeeps(policy, b, y, size);
    OneBitTold(policy[c], a, b, x.req, size, x.net, x.draw);
  }

  /**
   Whole-run non-interference: two runs that start from the same routes of the client, hold the same
   requests of the client, and agree on whether each name it asks for is taken when it asks, tell the
   client the same and leave its routes the same, whatever the other clients hold and do in either.
   */
  lemma {:induction false} OnlyBitsTold(policy: Clients, c: string, a: Table, xs: seq<Ask>, b: Table, ys: seq<Ask>,
    size: nat)
    requires AlikeTo(policy, c, a, xs, b, ys, size)
    ensures Told(policy, a, c, xs, size) == Told(policy, b, c, ys, size)
    ensures SameMine(Mine(policy[c]), After(policy, a, xs, size), After(policy, b, ys, size))
    decreases |xs| + |ys|
  {
    if xs != [] && xs[0].who != Some(c) {
      SkipForeign(policy, c, a, xs, b, ys, size);
      OnlyBitsTold(policy, c, Served(policy, a, xs[0], size).0, xs[1..], b, ys, size);
    } else if ys != [] && ys[0].who != Some(c) {
      AlikeTurned(policy, c, a, xs, b, ys, size);
      SkipForeign(policy, c, b, ys, a, xs, size);
      AlikeTurned(policy, c, Served(policy, b, ys[0], size).0, ys[1..], a, xs, size);
      OnlyBitsTold(policy, c, a, xs, Served(policy, b, ys[0], size).0, ys[1..], size);
    } else if xs != [] && ys != [] {
      AskTogether(policy, c, a, xs, b, ys, size);
      OnlyBitsTold(policy, c, Served(policy, a, xs[0], size).0, xs[1..], Served(policy, b, ys[0], size).0, ys[1..],
        size);
    } else {
      assert |AsksOf(c, xs)| == |AsksOf(c, ys)|;
    }
  }
}
