/**
 The hostname-routes API the broker stands in front of: routes in the order they were created, looked up
 by id, listed by filter a page at a time, no two under the same hostname.
 */
module UpstreamApi {
  import opened Wrappers
  import opened Routes

  datatype Table = Table(routes: seq<Route>, next: nat)

  ghost predicate ValidTable(t: Table) {
    && (forall i, j :: 0 <= i < j < |t.routes| ==>
          t.routes[i].id != t.routes[j].id && t.routes[i].hostname != t.routes[j].hostname)
    && (forall i :: 0 <= i < |t.routes| ==> t.routes[i].id < t.next)
  }

  /** A wildcard name is stored without its wildcard label. */
  function StoredName(hostname: string): string {
    if "*." <= hostname then hostname[2..] else hostname
  }

  predicate Held(rs: seq<Route>, hostname: string) {
    exists i :: 0 <= i < |rs| && rs[i].hostname == hostname
  }

  function Find(rs: seq<Route>, id: nat): (r: Option<nat>)
    ensures r.Some? ==> r.value < |rs| && rs[r.value].id == id
    ensures r.None? ==> forall i :: 0 <= i < |rs| ==> rs[i].id != id
  {
    if rs == [] then None
    else if rs[|rs| - 1].id == id then Some(|rs| - 1)
    else Find(rs[..|rs| - 1], id)
  }

  // Listing.

  datatype Query = Query(tunnel: Option<string>, hostname: Option<string>, comment: Option<string>)

  predicate Fits(q: Query, r: Route) {
    && (q.tunnel.None? || r.tunnel == q.tunnel.value)
    && (q.hostname.None? || r.hostname == q.hostname.value)
    && (q.comment.None? || r.comment == q.comment.value)
  }

  function Select(q: Query, rs: seq<Route>): (out: seq<Route>)
    ensures forall r :: r in out <==> r in rs && Fits(q, r)
  {
    if rs == [] then []
    else
      assert rs == rs[..|rs| - 1] + [rs[|rs| - 1]];
      Select(q, rs[..|rs| - 1]) + if Fits(q, rs[|rs| - 1]) then [rs[|rs| - 1]] else []
  }

  function Min(a: nat, b: nat): nat {
    if a <= b then a else b
  }

  /** Page numbers start at 1. */
  function PageOf<T>(xs: seq<T>, page: nat, size: nat): seq<T>
    requires page > 0
  {
    xs[Min((page - 1) * size, |xs|)..Min((page - 1) * size + size, |xs|)]
  }

  // Changes.

  /** What a PATCH asks for; a field that is absent is left alone. */
  datatype Edit = Edit(hostname: Option<string>, tunnel: Option<string>, comment: Option<string>)

  function Edited(r: Route, e: Edit): Route {
    r.(hostname := if e.hostname.Some? then StoredName(e.hostname.value) else r.hostname,
       tunnel := if e.tunnel.Some? then e.tunnel.value else r.tunnel,
       comment := if e.comment.Some? then e.comment.value else r.comment)
  }

  function Added(t: Table, id: nat, hostname: string, tunnel: string, comment: string): Table {
    Table(t.routes + [Route(id, StoredName(hostname), tunnel, comment, false)], id + 1)
  }

  function Replaced(t: Table, i: nat, r: Route): Table
    requires i < |t.routes|
  {
    t.(routes := t.routes[i := r])
  }

  function Removed(t: Table, i: nat): Table
    requires i < |t.routes|
  {
    t.(routes := t.routes[..i] + t.routes[i + 1..])
  }

  /** The name is free for this route to take. */
  predicate Renamable(rs: seq<Route>, i: nat, hostname: string)
    requires i < |rs|
  {
    forall j :: 0 <= j < |rs| && j != i ==> rs[j].hostname != hostname
  }

  /** What an upstream call answers. */
  datatype Answer = Found(route: Route) | Absent | NameTaken | Down

  function PostTo(t: Table, id: nat, hostname: string, tunnel: string, comment: string, reply: Reply): (Table, Answer) {
    if reply.Fails? then (t, Down)
    else if Held(t.routes, StoredName(hostname)) then (t, if reply.Works? then NameTaken else Down)
    else
      var t' := Added(t, id, hostname, tunnel, comment);
      (t', if reply.Works? then Found(t'.routes[|t.routes|]) else Down)
  }

  function PatchAt(t: Table, id: nat, e: Edit, reply: Reply): (Table, Answer) {
    if reply.Fails? then (t, Down)
    else
      match Find(t.routes, id)
      case None => (t, if reply.Works? then Absent else Down)
      case Some(i) =>
        var r := Edited(t.routes[i], e);
        if !Renamable(t.routes, i, r.hostname) then (t, if reply.Works? then NameTaken else Down)
        else (Replaced(t, i, r), if reply.Works? then Found(r) else Down)
  }

  function DeleteAt(t: Table, id: nat, reply: Reply): (Table, Answer) {
    if reply.Fails? then (t, Down)
    else
      match Find(t.routes, id)
      case None => (t, if reply.Works? then Absent else Down)
      case Some(i) => (Removed(t, i), if reply.Works? then Found(t.routes[i]) else Down)
  }

  function GetFrom(t: Table, id: nat, reply: Reply): Answer {
    if !reply.Works? then Down
    else
      match Find(t.routes, id)
      case None => Absent
      case Some(i) => Found(t.routes[i])
  }

  lemma PostKeeps(t: Table, id: nat, hostname: string, tunnel: string, comment: string, reply: Reply)
    requires ValidTable(t) && id >= t.next
    ensures ValidTable(PostTo(t, id, hostname, tunnel, comment, reply).0)
  {
  }

  lemma PatchKeeps(t: Table, id: nat, e: Edit, reply: Reply)
    requires ValidTable(t)
    ensures ValidTable(PatchAt(t, id, e, reply).0)
  {
  }

  lemma DeleteKeeps(t: Table, id: nat, reply: Reply)
    requires ValidTable(t)
    ensures ValidTable(DeleteAt(t, id, reply).0)
  {
  }

  /** A delete that is answered leaves every route but the one with the id. */
  lemma DeleteIsById(t: Table, id: nat, reply: Reply)
    requires ValidTable(t)
    ensures var (t', a) := DeleteAt(t, id, reply);
      && (a.Found? ==> a.route.id == id && forall r :: r in t'.routes <==> r in t.routes && r.id != id)
      && (!a.Found? && !reply.Lost? ==> t' == t)
  {
    var rs, out := t.routes, DeleteAt(t, id, reply).0.routes;
    if reply.Works? && Find(rs, id).Some? {
      var i := Find(rs, id).value;
      forall r
        ensures r in out <==> r in rs && r.id != id
      {
        if r in rs && r.id != id {
          var j :| 0 <= j < |rs| && rs[j] == r;
          assert out[if j < i then j else j - 1] == r;
        }
      }
    }
  }

  class Upstream {
    const size: nat
    var table: Table

    constructor (table: Table, size: nat)
      ensures this.table == table && this.size == size
    {
      this.table, this.size := table, size;
    }

    /** One page of what fits, with the page size used and the number of all that fits. */
    method GetPage(q: Query, page: nat, reply: Reply) returns (r: Result<(seq<Route>, nat, nat), ()>)
      requires page > 0
      ensures r == if !reply.Works? then Failure(()) else
        Success((PageOf(Select(q, table.routes), page, size), size, |Select(q, table.routes)|))
    {
      if !reply.Works? {
        return Failure(());
      }
      var found := Select(q, table.routes);
      return Success((PageOf(found, page, size), size, |found|));
    }

    method PostRoute(id: nat, hostname: string, tunnel: string, comment: string, reply: Reply) returns (a: Answer)
      modifies this`table
      ensures (table, a) == PostTo(old(table), id, hostname, tunnel, comment, reply)
    {
      var (t, out) := PostTo(table, id, hostname, tunnel, comment, reply);
      table := t;
      return out;
    }

    method PatchRoute(id: nat, e: Edit, reply: Reply) returns (a: Answer)
      modifies this`table
      ensures (table, a) == PatchAt(old(table), id, e, reply)
    {
      var (t, out) := PatchAt(table, id, e, reply);
      table := t;
      return out;
    }

    method DeleteRoute(id: nat, reply: Reply) returns (a: Answer)
      modifies this`table
      ensures (table, a) == DeleteAt(old(table), id, reply)
    {
      var (t, out) := DeleteAt(table, id, reply);
      table := t;
      return out;
    }
  }
}
