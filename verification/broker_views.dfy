/**
 What a client can learn through the broker: its own routes, and which names are taken. Two accounts that
 agree on those answer it alike, whatever other clients keep in them.
 */
module BrokerViews {
  import opened Wrappers
  import opened Text
  import opened Routes
  import opened Policy
  import opened PolicyParse
  import opened UpstreamApi
  import opened Broker

  /** The spellings of a client's tunnels. */
  ghost function Mine(client: ClientPolicy): iset<string> {
    iset t | TunnelAllowed(client, Str(t))
  }

  /** The routes on some tunnels, in order. */
  ghost function Keep(mine: iset<string>, rs: seq<Route>): seq<Route> {
    if rs == [] then []
    else Keep(mine, rs[..|rs| - 1]) + if rs[|rs| - 1].tunnel in mine then [rs[|rs| - 1]] else []
  }

  lemma {:induction false} AllowedIsKept(client: ClientPolicy, rs: seq<Route>)
    ensures Allowed(client, rs) == Keep(Mine(client), rs)
  {
    if rs != [] {
      AllowedIsKept(client, rs[..|rs| - 1]);
    }
  }

  /** The client sees the same in both: its own routes in the same order, and the same names taken. */
  ghost predicate Agree(mine: iset<string>, a: Table, b: Table) {
    && Keep(mine, a.routes) == Keep(mine, b.routes)
    && forall h :: Held(a.routes, h) <==> Held(b.routes, h)
  }

  lemma KeepAppend(mine: iset<string>, rs: seq<Route>, r: Route)
    ensures Keep(mine, rs + [r]) == Keep(mine, rs) + if r.tunnel in mine then [r] else []
  {
    assert (rs + [r])[..|rs|] == rs;
  }

  lemma {:induction false} KeepElements(mine: iset<string>, rs: seq<Route>)
    ensures forall r :: r in Keep(mine, rs) <==> r in rs && r.tunnel in mine
  {
    if rs != [] {
      assert rs == rs[..|rs| - 1] + [rs[|rs| - 1]];
      KeepElements(mine, rs[..|rs| - 1]);
    }
  }

  // Changing one route, by id.

  function WithId(rs: seq<Route>, id: nat, r: Route): (out: seq<Route>)
    ensures |out| == |rs| && forall i :: 0 <= i < |rs| ==> out[i] == if rs[i].id == id then r else rs[i]
  {
    seq(|rs|, i requires 0 <= i < |rs| => if rs[i].id == id then r else rs[i])
  }

  function WithoutId(rs: seq<Route>, id: nat): seq<Route> {
    if rs == [] then []
    else WithoutId(rs[..|rs| - 1], id) + if rs[|rs| - 1].id == id then [] else [rs[|rs| - 1]]
  }

  ghost predicate EachOnce(rs: seq<Route>) {
    forall i, j :: 0 <= i < j < |rs| ==> rs[i].id != rs[j].id
  }

  lemma {:induction false} WithoutNothing(rs: seq<Route>, id: nat)
    requires forall i :: 0 <= i < |rs| ==> rs[i].id != id
    ensures WithoutId(rs, id) == rs
  {
    if rs != [] {
      WithoutNothing(rs[..|rs| - 1], id);
    }
  }

  lemma {:induction false} RemovedIsWithout(rs: seq<Route>, i: nat)
    requires EachOnce(rs) && i < |rs|
    ensures rs[..i] + rs[i + 1..] == WithoutId(rs, rs[i].id)
  {
    var front, last := rs[..|rs| - 1], rs[|rs| - 1];
    if i == |rs| - 1 {
      WithoutNothing(front, rs[i].id);
    } else {
      RemovedIsWithout(front, i);
      assert front[..i] == rs[..i] && front[i + 1..] + [last] == rs[i + 1..];
    }
  }

  lemma WithoutAppend(rs: seq<Route>, r: Route, id: nat)
    ensures WithoutId(rs + [r], id) == WithoutId(rs, id) + if r.id == id then [] else [r]
  {
    assert (rs + [r])[..|rs|] == rs;
  }

  lemma WithAppend(rs: seq<Route>, x: Route, id: nat, r: Route)
    ensures WithId(rs + [x], id, r) == WithId(rs, id, r) + [if x.id == id then r else x]
  {
  }

  /** Changing one of the client's own routes is the same change in its view. */
  lemma {:induction false} KeepWithId(mine: iset<string>, rs: seq<Route>, id: nat, r: Route)
    requires r.tunnel in mine && forall i :: 0 <= i < |rs| && rs[i].id == id ==> rs[i].tunnel in mine
    ensures Keep(mine, WithId(rs, id, r)) == WithId(Keep(mine, rs), id, r)
  {
    if rs != [] {
      var front, last := rs[..|rs| - 1], rs[|rs| - 1];
      assert rs == front + [last];
      KeepWithId(mine, front, id, r);
      WithAppend(front, last, id, r);
      KeepAppend(mine, WithId(front, id, r), if last.id == id then r else last);
      WithAppend(Keep(mine, front), last, id, r);
    }
  }

  lemma {:induction false} KeepWithoutId(mine: iset<string>, rs: seq<Route>, id: nat)
    ensures Keep(mine, WithoutId(rs, id)) == WithoutId(Keep(mine, rs), id)
  {
    if rs != [] {
      var front, last := rs[..|rs| - 1], rs[|rs| - 1];
      KeepWithoutId(mine, front, id);
      assert WithoutId(front, id) + [] == WithoutId(front, id) && Keep(mine, front) + [] == Keep(mine, front);
      KeepAppend(mine, WithoutId(front, id), last);
      WithoutAppend(Keep(mine, front), last, id);
    }
  }

  /** A change to a route that is not the client's, into one that is not, leaves its view as it was. */
  lemma {:induction false} KeepForeignChange(mine: iset<string>, rs: seq<Route>, id: nat, r: Route)
    requires r.tunnel !in mine && forall i :: 0 <= i < |rs| && rs[i].id == id ==> rs[i].tunnel !in mine
    ensures Keep(mine, WithId(rs, id, r)) == Keep(mine, rs)
    ensures Keep(mine, WithoutId(rs, id)) == Keep(mine, rs)
  {
    if rs != [] {
      var front, last := rs[..|rs| - 1], rs[|rs| - 1];
      assert rs == front + [last];
      KeepForeignChange(mine, front, id, r);
      WithAppend(front, last, id, r);
      KeepAppend(mine, WithId(front, id, r), if last.id == id then r else last);
      assert WithoutId(front, id) + [] == WithoutId(front, id) && Keep(mine, front) + [] == Keep(mine, front);
      KeepAppend(mine, WithoutId(front, id), last);
    }
  }

  // The names taken.

  lemma HeldAfterReplace(t: Table, i: nat, r: Route, h: string)
    requires ValidTable(t) && i < |t.routes|
    ensures Held(Replaced(t, i, r).routes, h) <==> h == r.hostname || (Held(t.routes, h) && h != t.routes[i].hostname)
  {
    var rs := Replaced(t, i, r).routes;
    assert rs[i] == r;
    if Held(t.routes, h) && h != t.routes[i].hostname {
      var j :| 0 <= j < |t.routes| && t.routes[j].hostname == h;
      assert rs[j].hostname == h;
    }
  }

  /** Where the routes left after a removal were before it. */
  lemma RemovedAt(rs: seq<Route>, i: nat, j: nat)
    requires i < |rs| && j < |rs| - 1
    ensures (rs[..i] + rs[i + 1..])[j] == rs[if j < i then j else j + 1]
  {
  }

  lemma StillHeld(t: Table, i: nat, h: string)
    requires i < |t.routes| && Held(t.routes, h) && h != t.routes[i].hostname
    ensures Held(Removed(t, i).routes, h)
  {
    var j :| 0 <= j < |t.routes| && t.routes[j].hostname == h;
    RemovedAt(t.routes, i, if j < i then j else j - 1);
  }

  lemma WasHeld(t: Table, i: nat, h: string)
    requires ValidTable(t) && i < |t.routes| && Held(Removed(t, i).routes, h)
    ensures Held(t.routes, h) && h != t.routes[i].hostname
  {
    var j :| 0 <= j < |Removed(t, i).routes| && Removed(t, i).routes[j].hostname == h;
    RemovedAt(t.routes, i, j);
  }

  lemma HeldAfterRemove(t: Table, i: nat, h: string)
    requires ValidTable(t) && i < |t.routes|
    ensures Held(Removed(t, i).routes, h) <==> Held(t.routes, h) && h != t.routes[i].hostname
  {
    if Held(Removed(t, i).routes, h) {
      WasHeld(t, i, h);
    } else if Held(t.routes, h) && h != t.routes[i].hostname {
      StillHeld(t, i, h);
    }
  }

  lemma HeldAfterAdd(t: Table, id: nat, hostname: string, tunnel: string, comment: string, h: string)
    ensures Held(Added(t, id, hostname, tunnel, comment).routes, h) <==> Held(t.routes, h) || h == StoredName(hostname)
  {
    var rs := Added(t, id, hostname, tunnel, comment).routes;
    assert rs[|t.routes|].hostname == StoredName(hostname);
    if Held(t.routes, h) {
      var j :| 0 <= j < |t.routes| && t.routes[j].hostname == h;
      assert rs[j].hostname == h;
    }
  }

  lemma RenamableIsFree(t: Table, i: nat, hostname: string)
    requires ValidTable(t) && i < |t.routes|
    ensures Renamable(t.routes, i, hostname) <==> !Held(t.routes, hostname) || t.routes[i].hostname == hostname
  {
  }

  // Looking up.

  /** The route under an id, if it is on one of these tunnels. */
  ghost function FindMine(mine: iset<string>, t: Table, id: nat): Option<Route> {
    match Find(t.routes, id)
    case None => None
    case Some(i) => if t.routes[i].tunnel in mine then Some(t.routes[i]) else None
  }

  lemma FindMineKept(mine: iset<string>, t: Table, id: nat, r: Route)
    requires ValidTable(t)
    ensures FindMine(mine, t, id) == Some(r) <==> r in Keep(mine, t.routes) && r.id == id
  {
    KeepElements(mine, t.routes);
    if r in t.routes && r.id == id {
      var j :| 0 <= j < |t.routes| && t.routes[j] == r;
    }
  }

  /** A client finds its own route by id in both accounts, or in neither. */
  lemma FindMineAgrees(mine: iset<string>, a: Table, b: Table, id: nat)
    requires ValidTable(a) && ValidTable(b) && Keep(mine, a.routes) == Keep(mine, b.routes)
    ensures FindMine(mine, a, id) == FindMine(mine, b, id)
  {
    if FindMine(mine, a, id).Some? {
      FindMineKept(mine, a, id, FindMine(mine, a, id).value);
      FindMineKept(mine, b, id, FindMine(mine, a, id).value);
    } else if FindMine(mine, b, id).Some? {
      FindMineKept(mine, b, id, FindMine(mine, b, id).value);
      FindMineKept(mine, a, id, FindMine(mine, b, id).value);
    }
  }

  /** What a lookup answers depends only on the client's own route under that id. */
  lemma LookUpIsOwn(client: ClientPolicy, t: Table, id: nat, net: Net)
    ensures OwnRoute(client, t, Some(id), net) ==
      if !net(GetCall).Works? then Failure(UpstreamFailed)
      else
        match FindMine(Mine(client), t, id)
        case None => Failure(NotFound)
        case Some(r) => if Visible(client, r) then Success(r) else Failure(NotFound)
  {
  }

  lemma LookUpAgrees(client: ClientPolicy, a: Table, b: Table, id: Option<nat>, net: Net)
    requires ValidTable(a) && ValidTable(b) && Keep(Mine(client), a.routes) == Keep(Mine(client), b.routes)
    ensures OwnRoute(client, a, id, net) == OwnRoute(client, b, id, net)
  {
    if id.Some? {
      LookUpIsOwn(client, a, id.value, net);
      LookUpIsOwn(client, b, id.value, net);
      FindMineAgrees(Mine(client), a, b, id.value);
    }
  }
}
