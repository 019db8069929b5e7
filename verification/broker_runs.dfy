/**
 The broker over whole runs. A patch or delete is two upstream calls, a look-up and a change, with any
 other requests in between; the look-up's verdict still holds when the change lands.
 */
module BrokerRuns {
  import opened Wrappers
  import opened Text
  import opened Routes
  import opened Policy
  import opened PolicyParse
  import opened UpstreamApi
  import opened Broker
  import opened BrokerViews
  import opened BrokerIsolation

  /** A request whose route has been looked up and whose change has not been sent yet. */
  datatype Flight = Patching(client: string, id: nat, body: Body) | Deleting(client: string, id: nat)

  datatype Site = Site(table: Table, flights: seq<Flight>)

  datatype Event =
    | Arrive(who: Option<string>, req: Request, net: Net, draw: nat)
    | Land(k: nat, net: Net)

  /** A patch or delete by a known client is looked up and left in flight; anything else is served at once. */
  function Arrives(policy: Clients, s: Site, who: Option<string>, req: Request, size: nat, net: Net, draw: nat): Site {
    if who.None? || who.value !in policy then s
    else
      var client := policy[who.value];
      match req
      case PatchRoute(id, body) =>
        if body.Some? && OwnRoute(client, s.table, id, net).Success?
        then s.(flights := s.flights + [Patching(who.value, id.value, body.value)]) else s
      case DeleteRoute(id) =>
        if OwnRoute(client, s.table, id, net).Success?
        then s.(flights := s.flights + [Deleting(who.value, id.value)]) else s
      case _ => s.(table := Serve(client, s.table, req, size, net, draw).0)
  }

  function Lands(policy: Clients, s: Site, k: nat, net: Net): Site
    requires k < |s.flights| && s.flights[k].client in policy
  {
    var f, rest := s.flights[k], s.flights[..k] + s.flights[k + 1..];
    match f
    case Patching(c, id, body) => Site(PatchStep(policy[c], s.table, id, body, net).0, rest)
    case Deleting(_, id) => Site(DeleteStep(s.table, id, net).0, rest)
  }

  function Next(policy: Clients, s: Site, size: nat, e: Event): Site {
    match e
    case Arrive(who, req, net, draw) => Arrives(policy, s, who, req, size, net, draw)
    case Land(k, net) => if k < |s.flights| && s.flights[k].client in policy then Lands(policy, s, k, net) else s
  }

  /** Ids are never drawn twice. */
  predicate Draws(s: Site, e: Event) {
    e.Arrive? ==> e.draw >= s.table.next
  }

  /** Who a step is made for. */
  function Actor(s: Site, e: Event): Option<string> {
    match e
    case Arrive(who, _, _, _) => who
    case Land(k, _) => if k < |s.flights| then Some(s.flights[k].client) else None
  }

  // What one step may change.

  function Lookup(t: Table, id: nat): Option<Route> {
    match Find(t.routes, id)
    case None => None
    case Some(i) => Some(t.routes[i])
  }

  lemma LookupIs(t: Table, id: nat, r: Route)
    requires ValidTable(t)
    ensures Lookup(t, id) == Some(r) <==> r in t.routes && r.id == id
  {
    if r in t.routes && r.id == id {
      var j :| 0 <= j < |t.routes| && t.routes[j] == r;
    }
  }

  /** The route under this id is as it was, or was and is on these tunnels; a new one has a new id. */
  ghost predicate ChangesAt(mine: iset<string>, t: Table, t': Table, id: nat) {
    var before, after := Lookup(t, id), Lookup(t', id);
    || before == after
    || ((before.Some? ==> before.value.tunnel in mine) && (after.Some? ==> after.value.tunnel in mine)
        && (before.None? ==> id >= t.next))
  }

  ghost predicate ChangesOnly(mine: iset<string>, t: Table, t': Table) {
    ValidTable(t') && t.next <= t'.next && forall id :: ChangesAt(mine, t, t', id)
  }

  lemma PostChanges(mine: iset<string>, t: Table, id: nat, hostname: string, tunnel: string, comment: string,
    reply: Reply)
    requires ValidTable(t) && id >= t.next && tunnel in mine
    ensures ChangesOnly(mine, t, PostTo(t, id, hostname, tunnel, comment, reply).0)
  {
    var t' := PostTo(t, id, hostname, tunnel, comment, reply).0;
    PostKeeps(t, id, hostname, tunnel, comment, reply);
    if t' != t {
      forall k
        ensures ChangesAt(mine, t, t', k)
      {
        if k != id {
          SameLookup(t, t', k);
        }
      }
    }
  }

  /** Tables that hold the same routes under an id look it up alike. */
  lemma SameLookup(t: Table, t': Table, id: nat)
    requires ValidTable(t) && ValidTable(t') && forall r: Route :: r.id == id ==> (r in t.routes <==> r in t'.routes)
    ensures Lookup(t, id) == Lookup(t', id)
  {
    if Lookup(t, id).Some? {
      LookupIs(t, id, Lookup(t, id).value);
      LookupIs(t', id, Lookup(t, id).value);
    } else if Lookup(t', id).Some? {
      LookupIs(t', id, Lookup(t', id).value);
      LookupIs(t, id, Lookup(t', id).value);
    }
  }

  lemma PatchChanges(mine: iset<string>, t: Table, id: nat, e: Edit, reply: Reply)
    requires ValidTable(t)
    requires Lookup(t, id).Some? ==> Lookup(t, id).value.tunnel in mine && Edited(Lookup(t, id).value, e).tunnel in mine
    ensures ChangesOnly(mine, t, PatchAt(t, id, e, reply).0)
  {
    var t' := PatchAt(t, id, e, reply).0;
    PatchKeeps(t, id, e, reply);
    if t' != t {
      var i, r' := Find(t.routes, id).value, Edited(Lookup(t, id).value, e);
      assert t'.routes[i] == r';
      forall k
        ensures ChangesAt(mine, t, t', k)
      {
        if k != id {
          OthersStay(t.routes, i, r', k);
          SameLookup(t, t', k);
        } else {
          LookupIs(t', id, r');
        }
      }
    }
  }

  lemma OthersStay(rs: seq<Route>, i: nat, r: Route, k: nat)
    requires i < |rs| && rs[i].id != k && r.id != k
    ensures forall x: Route :: x.id == k ==> (x in rs[i := r] <==> x in rs)
  {
    forall x: Route | x.id == k
      ensures x in rs[i := r] <==> x in rs
    {
      if x in rs {
        var j :| 0 <= j < |rs| && rs[j] == x;
        assert rs[i := r][j] == x;
      }
    }
  }

  lemma DeleteChanges(mine: iset<string>, t: Table, id: nat, reply: Reply)
    requires ValidTable(t) && (Lookup(t, id).Some? ==> Lookup(t, id).value.tunnel in mine)
    ensures ChangesOnly(mine, t, DeleteAt(t, id, reply).0)
    ensures !reply.Fails? ==> Lookup(DeleteAt(t, id, reply).0, id).None?
    ensures forall k :: k != id ==> Lookup(DeleteAt(t, id, reply).0, k) == Lookup(t, k)
  {
    var t' := DeleteAt(t, id, reply).0;
    DeleteKeeps(t, id, reply);
    if t' != t {
      var i := Find(t.routes, id).value;
      forall k
        ensures k != id ==> Lookup(t, k) == Lookup(t', k)
      {
        if k != id {
          RemainsOut(t.routes, i, k);
          SameLookup(t, t', k);
        }
      }
    }
    if !reply.Fails? {
      assert forall j :: 0 <= j < |t'.routes| ==> t'.routes[j].id != id;
    }
  }

  lemma RemainsOut(rs: seq<Route>, i: nat, k: nat)
    requires i < |rs| && rs[i].id != k
    ensures forall x: Route :: x.id == k ==> (x in rs[..i] + rs[i + 1..] <==> x in rs)
  {
    forall x: Route | x.id == k
      ensures x in rs[..i] + rs[i + 1..] <==> x in rs
    {
      if x in rs {
        var j :| 0 <= j < |rs| && rs[j] == x;
        assert (rs[..i] + rs[i + 1..])[if j < i then j else j - 1] == x;
      }
    }
  }

  // Checks that stay true.

  /** The route in flight, if it is still there, is on its client's tunnels. */
  ghost predicate Checked(policy: Clients, t: Table, f: Flight) {
    && f.client in policy && f.id < t.next
    && (Lookup(t, f.id).Some? ==> Lookup(t, f.id).value.tunnel in Mine(policy[f.client]))
  }

  ghost predicate Sound(policy: Clients, s: Site) {
    WellDivided(policy) && ValidTable(s.table) && forall i :: 0 <= i < |s.flights| ==>
      Checked(policy, s.table, s.flights[i])
  }

  /** A request that is looked up first leaves the table for its change to come. */
  lemma LookUpLeavesTable(policy: Clients, s: Site, who: Option<string>, req: Request, size: nat, net: Net, draw: nat)
    requires req.PatchRoute? || req.DeleteRoute? || req.ListRoutes? || req.OtherMethod?
    ensures Arrives(policy, s, who, req, size, net, draw).table == s.table
  {
  }

  /** What a create by this client leaves of the table, if it changes it. */
  predicate Creates(client: ClientPolicy, t: Table, b: Body, net: Net, draw: nat, t': Table) {
    && b.hostname.Str? && TunnelAllowed(client, b.tunnel)
    && t' == PostTo(t, draw, b.hostname.s, b.tunnel.s, CommentOf(b.comment), net(ChangeCall)).0
  }

  lemma CreateChangesTable(client: ClientPolicy, t: Table, body: Option<Body>, net: Net, draw: nat)
    ensures var t' := CreateStep(client, t, body, net, draw).0;
      t' == t || (body.Some? && Creates(client, t, body.value, net, draw, t'))
  {
  }

  /** An arrival changes the table only by a create that is allowed. */
  lemma ArrivalTable(policy: Clients, s: Site, size: nat, e: Event)
    requires e.Arrive?
    ensures var t' := Next(policy, s, size, e).table;
      t' == s.table ||
        (e.req.CreateRoute? && e.req.body.Some? && e.who.Some? && e.who.value in policy
         && Creates(policy[e.who.value], s.table, e.req.body.value, e.net, e.draw, t'))
  {
    if e.req.CreateRoute? && e.who.Some? && e.who.value in policy {
      CreateChangesTable(policy[e.who.value], s.table, e.req.body, e.net, e.draw);
    } else if !e.req.CreateRoute? {
      LookUpLeavesTable(policy, s, e.who, e.req, size, e.net, e.draw);
    }
  }

  /** Every step is a change to routes on the tunnels of the client it is made for. */
  lemma StepChanges(policy: Clients, s: Site, size: nat, e: Event)
    requires Sound(policy, s) && Draws(s, e)
    ensures Next(policy, s, size, e).table == s.table || (Actor(s, e).Some? && Actor(s, e).value in policy)
    ensures Next(policy, s, size, e).table != s.table ==>
      ChangesOnly(Mine(policy[Actor(s, e).value]), s.table, Next(policy, s, size, e).table)
  {
    if e.Arrive? {
      ArrivalTable(policy, s, size, e);
      if Next(policy, s, size, e).table != s.table {
        var b := e.req.body.value;
        PostChanges(Mine(policy[e.who.value]), s.table, e.draw, b.hostname.s, b.tunnel.s, CommentOf(b.comment),
          e.net(ChangeCall));
      }
    } else if e.k < |s.flights| {
      LandChanges(policy, s, s.flights[e.k], e.net);
    }
  }

  lemma LandChanges(policy: Clients, s: Site, f: Flight, net: Net)
    requires Sound(policy, s) && Checked(policy, s.table, f)
    ensures f.Patching? ==>
      ChangesOnly(Mine(policy[f.client]), s.table, PatchStep(policy[f.client], s.table, f.id, f.body, net).0)
    ensures f.Deleting? ==> ChangesOnly(Mine(policy[f.client]), s.table, DeleteStep(s.table, f.id, net).0)
  {
    var client, mine := policy[f.client], Mine(policy[f.client]);
    if f.Deleting? {
      DeleteChanges(mine, s.table, f.id, net(ChangeCall));
    } else if MayPatch(client, f.body) {
      if Lookup(s.table, f.id).Some? {
        PatchStaysMine(client, Lookup(s.table, f.id).value, f.body);
      }
      PatchChanges(mine, s.table, f.id, EditOf(f.body), net(ChangeCall));
    }
  }

  /** What one client may change never spoils another client's check, nor its own. */
  lemma CheckedKept(policy: Clients, t: Table, t': Table, d: string, f: Flight)
    requires WellDivided(policy) && d in policy && Checked(policy, t, f) && ChangesOnly(Mine(policy[d]), t, t')
    ensures Checked(policy, t', f)
  {
    assert ChangesAt(Mine(policy[d]), t, t', f.id);
    if f.client != d {
      MineApart(policy, f.client, d);
    }
  }

  lemma ArrivalChecked(policy: Clients, s: Site, who: string, id: Option<nat>, net: Net)
    requires Sound(policy, s) && who in policy && OwnRoute(policy[who], s.table, id, net).Success?
    ensures id.Some? && id.value < s.table.next
    ensures Lookup(s.table, id.value).Some? && Lookup(s.table, id.value).value.tunnel in Mine(policy[who])
  {
    LookUpFinds(policy[who], s.table, id, net);
  }

  /** The look-up's verdict survives every step of every client, in any interleaving. */
  lemma SoundStep(policy: Clients, s: Site, size: nat, e: Event)
    requires Sound(policy, s) && Draws(s, e)
    ensures Sound(policy, Next(policy, s, size, e))
  {
    var s' := Next(policy, s, size, e);
    StepChanges(policy, s, size, e);
    if s'.table != s.table {
      forall f | Checked(policy, s.table, f)
        ensures Checked(policy, s'.table, f)
      {
        CheckedKept(policy, s.table, s'.table, Actor(s, e).value, f);
      }
    }
    if e.Arrive? && |s'.flights| > |s.flights| {
      ArrivalChecked(policy, s, e.who.value, e.req.id, e.net);
    }
  }

  function Run(policy: Clients, s: Site, size: nat, es: seq<Event>): Site
    decreases |es|
  {
    if es == [] then s else Run(policy, Next(policy, s, size, es[0]), size, es[1..])
  }

  predicate DrawsAll(policy: Clients, s: Site, size: nat, es: seq<Event>)
    decreases |es|
  {
    es == [] || (Draws(s, es[0]) && DrawsAll(policy, Next(policy, s, size, es[0]), size, es[1..]))
  }

  lemma {:induction false} SoundRun(policy: Clients, s: Site, size: nat, es: seq<Event>)
    requires Sound(policy, s) && DrawsAll(policy, s, size, es)
    ensures Sound(policy, Run(policy, s, size, es))
    decreases |es|
  {
    if es != [] {
      SoundStep(policy, s, size, es[0]);
      SoundRun(policy, Next(policy, s, size, es[0]), size, es[1..]);
    }
  }

  /** Nobody acts for this client in these steps. */
  predicate Without(policy: Clients, s: Site, size: nat, es: seq<Event>, c: string)
    decreases |es|
  {
    es == [] || (Actor(s, es[0]) != Some(c) && Without(policy, Next(policy, s, size, es[0]), size, es[1..], c))
  }

  /** On this client's tunnels there is, under this id, exactly this route, or none. */
  ghost predicate HasMine(mine: iset<string>, t: Table, id: nat, r: Option<Route>) {
    if r.Some? then Lookup(t, id) == r && r.value.tunnel in mine
    else Lookup(t, id).None? || Lookup(t, id).value.tunnel !in mine
  }

  lemma OthersLeaveMine(policy: Clients, s: Site, size: nat, e: Event, c: string, id: nat, r: Option<Route>)
    requires Sound(policy, s) && Draws(s, e) && c in policy && Actor(s, e) != Some(c)
    requires HasMine(Mine(policy[c]), s.table, id, r)
    ensures HasMine(Mine(policy[c]), Next(policy, s, size, e).table, id, r)
  {
    StepChanges(policy, s, size, e);
    if Next(policy, s, size, e).table != s.table {
      MineApart(policy, c, Actor(s, e).value);
      assert ChangesAt(Mine(policy[Actor(s, e).value]), s.table, Next(policy, s, size, e).table, id);
    }
  }

  /**
   Isolation over whole runs: while nobody acts for a client, however requests of the others interleave,
   its routes are exactly what they were, and no route appears on its tunnels.
   */
  lemma {:induction false} RunLeavesMine(policy: Clients, s: Site, size: nat, es: seq<Event>, c: string, id: nat,
    r: Option<Route>)
    requires Sound(policy, s) && DrawsAll(policy, s, size, es) && c in policy && Without(policy, s, size, es, c)
    requires HasMine(Mine(policy[c]), s.table, id, r)
    ensures HasMine(Mine(policy[c]), Run(policy, s, size, es).table, id, r)
    decreases |es|
  {
    if es != [] {
      OthersLeaveMine(policy, s, size, es[0], c, id, r);
      SoundStep(policy, s, size, es[0]);
      RunLeavesMine(policy, Next(policy, s, size, es[0]), size, es[1..], c, id, r);
    }
  }

  /** The step that deletes this client's route. */
  predicate Deletes(s: Site, e: Event, c: string, id: nat) {
    e.Land? && e.k < |s.flights| && s.flights[e.k] == Deleting(c, id)
  }

  /** A client's route stays on its tunnels until the client itself deletes it. */
  lemma StaysUntilDeleted(policy: Clients, s: Site, size: nat, e: Event, c: string, id: nat)
    requires Sound(policy, s) && Draws(s, e) && c in policy && !Deletes(s, e, c, id)
    requires Lookup(s.table, id).Some? && Lookup(s.table, id).value.tunnel in Mine(policy[c])
    ensures var t' := Next(policy, s, size, e).table;
      Lookup(t', id).Some? && Lookup(t', id).value.tunnel in Mine(policy[c])
  {
    var t' := Next(policy, s, size, e).table;
    if Actor(s, e) != Some(c) {
      OthersLeaveMine(policy, s, size, e, c, id, Lookup(s.table, id));
    } else {
      StepChanges(policy, s, size, e);
      if t' != s.table {
        assert ChangesAt(Mine(policy[c]), s.table, t', id);
        StillThere(policy, s, size, e, id);
      }
    }
  }

  /** No step of the run deletes this client's route. */
  predicate NeverDeletes(policy: Clients, s: Site, size: nat, es: seq<Event>, c: string, id: nat)
    decreases |es|
  {
    es == [] ||
      (!Deletes(s, es[0], c, id) && NeverDeletes(policy, Next(policy, s, size, es[0]), size, es[1..], c, id))
  }

  /**
   Over whole interleaved runs, whatever anyone asks for: until the client itself deletes it, its route is
   live and on its tunnels.
   */
  lemma {:induction false} StaysForTheRun(policy: Clients, s: Site, size: nat, es: seq<Event>, c: string, id: nat)
    requires Sound(policy, s) && DrawsAll(policy, s, size, es) && c in policy
    requires NeverDeletes(policy, s, size, es, c, id)
    requires Lookup(s.table, id).Some? && Lookup(s.table, id).value.tunnel in Mine(policy[c])
    ensures var t' := Run(policy, s, size, es).table;
      Lookup(t', id).Some? && Lookup(t', id).value.tunnel in Mine(policy[c])
    decreases |es|
  {
    if es != [] {
      StaysUntilDeleted(policy, s, size, es[0], c, id);
      SoundStep(policy, s, size, es[0]);
      StaysForTheRun(policy, Next(policy, s, size, es[0]), size, es[1..], c, id);
    }
  }

  lemma PostLeaves(t: Table, draw: nat, hostname: string, tunnel: string, comment: string, reply: Reply, id: nat)
    requires ValidTable(t) && draw >= t.next && Lookup(t, id).Some?
    ensures Lookup(PostTo(t, draw, hostname, tunnel, comment, reply).0, id) == Lookup(t, id)
  {
    PostKeeps(t, draw, hostname, tunnel, comment, reply);
    LookupIs(t, id, Lookup(t, id).value);
    LookupIs(PostTo(t, draw, hostname, tunnel, comment, reply).0, id, Lookup(t, id).value);
  }

  lemma PatchLeaves(t: Table, target: nat, e: Edit, reply: Reply, id: nat)
    requires ValidTable(t) && Lookup(t, id).Some?
    ensures Lookup(PatchAt(t, target, e, reply).0, id).Some?
  {
    var t', i := PatchAt(t, target, e, reply).0, Find(t.routes, id).value;
    assert |t'.routes| == |t.routes| && t'.routes[i].id == id;
  }

  /** Only a delete of this id makes it disappear. */
  lemma StillThere(policy: Clients, s: Site, size: nat, e: Event, id: nat)
    requires Sound(policy, s) && Draws(s, e) && Lookup(s.table, id).Some?
    requires Actor(s, e).Some? && !Deletes(s, e, Actor(s, e).value, id)
    ensures Lookup(Next(policy, s, size, e).table, id).Some?
  {
    if e.Arrive? {
      ArrivalTable(policy, s, size, e);
      if Next(policy, s, size, e).table != s.table {
        var b := e.req.body.value;
        PostLeaves(s.table, e.draw, b.hostname.s, b.tunnel.s, CommentOf(b.comment), e.net(ChangeCall), id);
      }
    } else {
      LandLeaves(policy, s, e.k, e.net, id);
    }
  }

  lemma LandLeaves(policy: Clients, s: Site, k: nat, net: Net, id: nat)
    requires Sound(policy, s) && k < |s.flights| && Lookup(s.table, id).Some?
    requires s.flights[k] != Deleting(s.flights[k].client, id)
    ensures Lookup(Lands(policy, s, k, net).table, id).Some?
  {
    var f := s.flights[k];
    if f.Deleting? {
      DeleteChanges(Mine(policy[f.client]), s.table, f.id, net(ChangeCall));
    } else if MayPatch(policy[f.client], f.body) {
      PatchLeaves(s.table, f.id, EditOf(f.body), net(ChangeCall), id);
    }
  }
}
