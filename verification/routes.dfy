/**
 The shared account: live hostname routes, at most one per hostname, each with an id that is never
 reused. The comment on a route is the only record of who owns it.
 */
module Routes {
  import opened Wrappers
  import opened Text

  datatype Route = Route(id: nat, hostname: string, tunnel: string, comment: string, deleted: bool)

  const MANAGED_BY := "managed-by=external-dns"

  /** The comment an owner writes. */
  function Tag(owner: string): string {
    if owner == "" then MANAGED_BY else MANAGED_BY + "/" + owner
  }

  /** The owner a comment names, or None when no instance of this program wrote it. */
  function RouteOwner(comment: string): Option<string> {
    var c := TrimSpace(comment);
    if c == MANAGED_BY then Some("")
    else if MANAGED_BY + "/" <= c then Some(c[|MANAGED_BY| + 1..])
    else None
  }

  lemma TrimSpaceTagged(prefix: string, rest: string)
    requires prefix != "" && !IsSpace(prefix[0])
    ensures rest == "" || !IsSpace(rest[|rest| - 1]) ==>
      (IsSpace(prefix[|prefix| - 1]) || TrimSpace(prefix + rest) == prefix + rest)
    ensures rest != "" && IsSpace(rest[|rest| - 1]) ==> |TrimSpace(prefix + rest)| < |prefix + rest|
  {
    var s := prefix + rest;
    assert TrimLeft(s) == s;
    if rest != "" && IsSpace(rest[|rest| - 1]) {
      TrimRightShrinks(s[..|s| - 1]);
    }
  }

  /** An owner recognises its own tag exactly when its id does not end in white space. */
  lemma OwnTag(owner: string)
    ensures RouteOwner(Tag(owner)) == Some(owner) <==> owner == "" || !IsSpace(owner[|owner| - 1])
  {
    var prefix := MANAGED_BY + "/";
    assert prefix[0] == 'm' && prefix[|prefix| - 1] == '/';
    if owner == "" {
      assert MANAGED_BY[|MANAGED_BY| - 1] == 's' && MANAGED_BY[0] == 'm';
      assert TrimLeft(MANAGED_BY) == MANAGED_BY;
      assert TrimRight(MANAGED_BY) == MANAGED_BY;
    } else {
      TrimSpaceTagged(prefix, owner);
      assert (prefix + owner)[|prefix|..] == owner;
      assert |prefix + owner| == |MANAGED_BY| + 1 + |owner|;
    }
  }

  /** The comment is this owner's tag, white space at its ends aside; the empty owner's may lack the slash. */
  ghost predicate BearsTag(comment: string, owner: string) {
    || TrimSpace(comment) == "managed-by=external-dns/" + owner
    || (owner == "" && TrimSpace(comment) == "managed-by=external-dns")
  }

  /** The comment is nobody's tag: made by hand, or by another tool. */
  ghost predicate NoTag(comment: string) {
    TrimSpace(comment) != "managed-by=external-dns" && !("managed-by=external-dns/" <= TrimSpace(comment))
  }

  /** Over all comments: which name an owner, and whom; and which name none. */
  lemma OwnerExact(comment: string, owner: string)
    ensures RouteOwner(comment) == Some(owner) <==> BearsTag(comment, owner)
    ensures RouteOwner(comment) == None <==> NoTag(comment)
  {
    var c := TrimSpace(comment);
    assert MANAGED_BY + "/" == "managed-by=external-dns/";
    if MANAGED_BY + "/" <= c {
      assert c == MANAGED_BY + "/" + c[|MANAGED_BY| + 1..];
    }
    assert c == "managed-by=external-dns/" + owner ==> c[|MANAGED_BY| + 1..] == owner && |c| > |MANAGED_BY|;
  }

  /** An empty comment names no owner. */
  lemma NoComment()
    ensures RouteOwner("").None?
  {
    assert TrimSpace("") == "";
    assert |MANAGED_BY| > 0;
  }

  /** Live routes by lower-case hostname, the routes deleted so far, and a bound on ids in use. */
  datatype Store = Store(live: map<string, Route>, dead: set<Route>, next: nat)

  ghost predicate ValidStore(s: Store) {
    && (forall h :: h in s.live ==> Lower(s.live[h].hostname) == h && !s.live[h].deleted && s.live[h].id < s.next)
    && (forall h, k :: h in s.live && k in s.live && s.live[h].id == s.live[k].id ==> h == k)
    && (forall r :: r in s.dead ==> r.deleted && r.id < s.next)
  }

  /** A mutating call. `host` is the lower-case hostname it is made for. */
  datatype Call =
    | Delete(host: string, id: nat)
    | Retarget(host: string, id: nat, tunnel: string, comment: string)
    | Create(host: string, hostname: string, tunnel: string, comment: string)
    | Adopt(host: string, id: nat, comment: string)

  /** What the network does to a call. Lost: it took effect but its answer never arrived. */
  datatype Reply = Works | Fails | Lost

  datatype Outcome = Done | Conflict | Failed

  predicate HasId(s: Store, id: nat) {
    exists h :: h in s.live && s.live[h].id == id
  }

  function DeleteId(s: Store, id: nat): Store {
    s.(live := map h | h in s.live && s.live[h].id != id :: s.live[h],
       dead := s.dead + set h | h in s.live && s.live[h].id == id :: s.live[h].(deleted := true))
  }

  /** An empty field is left out of the request and so left alone. */
  function RetargetId(s: Store, id: nat, tunnel: string, comment: string): Store {
    s.(live := map h | h in s.live ::
         if s.live[h].id != id then s.live[h]
         else s.live[h].(tunnel := if tunnel == "" then s.live[h].tunnel else tunnel,
                         comment := if comment == "" then s.live[h].comment else comment))
  }

  function CommentId(s: Store, id: nat, comment: string): Store {
    s.(live := map h | h in s.live ::
         if s.live[h].id != id then s.live[h] else s.live[h].(comment := comment))
  }

  function AddRoute(s: Store, id: nat, hostname: string, tunnel: string, comment: string): Store {
    Store(s.live[Lower(hostname) := Route(id, hostname, tunnel, comment, false)], s.dead, id + 1)
  }

  function Effect(s: Store, c: Call): Store {
    match c
    case Delete(_, id) => DeleteId(s, id)
    case Retarget(_, id, tunnel, comment) => RetargetId(s, id, tunnel, comment)
    case Create(_, hostname, tunnel, comment) => AddRoute(s, s.next, hostname, tunnel, comment)
    case Adopt(_, id, comment) => CommentId(s, id, comment)
  }

  /** A taken hostname refuses a create; an unknown id refuses the rest. */
  predicate Accepts(s: Store, c: Call) {
    if c.Create? then c.host !in s.live else HasId(s, c.id)
  }

  function Perform(s: Store, c: Call, reply: Reply): (Store, Outcome) {
    if reply.Fails? then (s, Failed)
    else if Accepts(s, c) then (Effect(s, c), if reply.Works? then Done else Failed)
    else (s, if c.Create? && reply.Works? then Conflict else Failed)
  }

  /** The id, if live at all, is live under this hostname: true of every id read from a listing. */
  ghost predicate Pinned(s: Store, host: string, id: nat) {
    id < s.next && forall k :: k in s.live && s.live[k].id == id ==> k == host
  }

  ghost predicate PinnedCall(s: Store, c: Call) {
    if c.Create? then c.host == Lower(c.hostname) else Pinned(s, c.host, c.id)
  }

  /** Whether the call, landing now, changes the route under its hostname. */
  predicate Hits(s: Store, c: Call) {
    c.host in s.live && !c.Create? && s.live[c.host].id == c.id
  }

  /** A pinned call touches its own hostname and nothing else, and keeps the account consistent. */
  lemma PerformLocal(s: Store, c: Call, reply: Reply)
    requires ValidStore(s) && PinnedCall(s, c)
    ensures var s' := Perform(s, c, reply).0;
      && ValidStore(s') && s.next <= s'.next && s.dead <= s'.dead
      && (forall h :: h != c.host ==> (h in s'.live <==> h in s.live))
      && (forall h :: h != c.host && h in s.live ==> s'.live[h] == s.live[h])
  {
    if !c.Create? && HasId(s, c.id) {
      assert c.host in s.live && s.live[c.host].id == c.id;
    }
  }

  /** What becomes of the route under the call's own hostname. */
  lemma PerformAtHost(s: Store, c: Call, reply: Reply)
    requires ValidStore(s) && PinnedCall(s, c)
    ensures var (s', out) := Perform(s, c, reply);
      && (out.Done? ==> Accepts(s, c) && reply.Works?)
      && (!Accepts(s, c) || reply.Fails? ==> s' == s)
      && (!c.Create? ==> (Accepts(s, c) <==> Hits(s, c)))
      && (Accepts(s, c) && !reply.Fails? ==>
           match c
           case Delete(h, _) => h !in s'.live
           case Retarget(h, id, t, m) => h in s'.live && s'.live[h] ==
             s.live[h].(tunnel := if t == "" then s.live[h].tunnel else t,
                        comment := if m == "" then s.live[h].comment else m)
           case Create(h, n, t, m) => h in s'.live && s'.live[h] == Route(s.next, n, t, m, false)
           case Adopt(h, id, m) => h in s'.live && s'.live[h] == s.live[h].(comment := m))
  {
    if !c.Create? && HasId(s, c.id) {
      assert c.host in s.live && s.live[c.host].id == c.id;
    }
  }

  /** Ids never move to another hostname, whatever calls are made. */
  lemma PinnedStable(s: Store, c: Call, reply: Reply, host: string, id: nat)
    requires ValidStore(s) && PinnedCall(s, c) && Pinned(s, host, id)
    ensures Pinned(Perform(s, c, reply).0, host, id)
  {
  }

  /** What is listed: one tunnel, or the whole account. */
  predicate InScope(scope: Option<string>, r: Route) {
    scope.None? || r.tunnel == scope.value
  }

  /** What a listing answers: every live route asked for once, and perhaps deleted ones. */
  ghost predicate ListingOf(s: Store, scope: Option<string>, rs: seq<Route>) {
    && (forall h :: h in s.live && InScope(scope, s.live[h]) ==> s.live[h] in rs)
    && (forall i :: 0 <= i < |rs| && !rs[i].deleted ==> Listed(s, scope, rs[i]))
    && (forall i, j :: 0 <= i < j < |rs| && !rs[i].deleted && !rs[j].deleted ==>
          Lower(rs[i].hostname) != Lower(rs[j].hostname))
  }

  ghost predicate Listed(s: Store, scope: Option<string>, r: Route) {
    Lower(r.hostname) in s.live && s.live[Lower(r.hostname)] == r && InScope(scope, r)
  }
}
