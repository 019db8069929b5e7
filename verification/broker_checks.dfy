/**
 What a client's own requests leave behind: names it may manage, and comments that name no owner but it.
 */
module BrokerChecks {
  import opened Wrappers
  import opened Text
  import opened Domains
  import opened Routes
  import opened Policy
  import opened PolicyParse
  import opened UpstreamApi
  import opened Broker
  import opened BrokerViews
  import opened BrokerIsolation
  import opened BrokerRuns
  import opened StoredNames

  // Names.

  lemma PatchStaysVisible(client: ClientPolicy, r: Route, b: Body)
    requires Canonical(client) && SuffixesStored(client) && Visible(client, r) && MayPatch(client, b)
    ensures Visible(client, Edited(r, EditOf(b)))
  {
    if b.hostname.Str? {
      StoredStillAllowed(client, b.hostname.s);
    }
  }

  /** The route in flight, if it is still there, is the client's own, under a name it may manage. */
  ghost predicate Own(policy: Clients, t: Table, f: Flight)
    requires Checked(policy, t, f)
  {
    match Lookup(t, f.id)
    case None => true
    case Some(r) => Visible(policy[f.client], r)
  }

  ghost predicate AllOwn(policy: Clients, s: Site) {
    Sound(policy, s) && forall i :: 0 <= i < |s.flights| ==> Own(policy, s.table, s.flights[i])
  }

  /** Names stay manageable as they are stored, for every client of the policy. */
  ghost predicate AllStored(policy: Clients) {
    forall c :: c in policy ==> SuffixesStored(policy[c])
  }

  /** What a client could manage under this id, it can still manage. */
  ghost predicate StaysVisible(client: ClientPolicy, t: Table, t': Table, id: nat) {
    match Lookup(t', id)
    case None => true
    case Some(r) => Lookup(t, id).Some? && Visible(client, Lookup(t, id).value) ==> Visible(client, r)
  }

  lemma CreateStaysVisible(client: ClientPolicy, t: Table, b: Body, reply: Reply, draw: nat, id: nat)
    requires ValidTable(t) && draw >= t.next && b.hostname.Str? && b.tunnel.Str?
    ensures StaysVisible(client, t, PostTo(t, draw, b.hostname.s, b.tunnel.s, CommentOf(b.comment), reply).0, id)
  {
    if Lookup(t, id).Some? {
      PostLeaves(t, draw, b.hostname.s, b.tunnel.s, CommentOf(b.comment), reply, id);
    }
  }

  lemma ArriveStaysVisible(policy: Clients, s: Site, size: nat, e: Event, id: nat)
    requires Sound(policy, s) && Draws(s, e) && e.Arrive? && e.who.Some? && e.who.value in policy
    ensures StaysVisible(policy[e.who.value], s.table, Next(policy, s, size, e).table, id)
  {
    ArrivalTable(policy, s, size, e);
    if Next(policy, s, size, e).table != s.table {
      CreateStaysVisible(policy[e.who.value], s.table, e.req.body.value, e.net(ChangeCall), e.draw, id);
    }
  }

  lemma LandStaysVisible(policy: Clients, s: Site, k: nat, net: Net, id: nat)
    requires Sound(policy, s) && AllStored(policy) && k < |s.flights| && Own(policy, s.table, s.flights[k])
    ensures StaysVisible(policy[s.flights[k].client], s.table, Lands(policy, s, k, net).table, id)
  {
    var f := s.flights[k];
    if f.Deleting? {
      DeleteChanges(Mine(policy[f.client]), s.table, f.id, net(ChangeCall));
    } else if MayPatch(policy[f.client], f.body) {
      PatchVisible(policy[f.client], s.table, f.id, f.body, net(ChangeCall), id);
    }
  }

  lemma PatchVisible(client: ClientPolicy, t: Table, target: nat, b: Body, reply: Reply, id: nat)
    requires Canonical(client) && SuffixesStored(client) && ValidTable(t) && MayPatch(client, b)
    requires Lookup(t, target).Some? ==> Visible(client, Lookup(t, target).value)
    ensures StaysVisible(client, t, PatchAt(t, target, EditOf(b), reply).0, id)
  {
    var t' := PatchAt(t, target, EditOf(b), reply).0;
    PatchKeeps(t, target, EditOf(b), reply);
    if t' != t {
      var i := Find(t.routes, target).value;
      var r' := Edited(t.routes[i], EditOf(b));
      PatchStaysVisible(client, t.routes[i], b);
      if id == target {
        assert t'.routes[i] == r';
        LookupIs(t', id, r');
      } else {
        OthersStay(t.routes, i, r', id);
        SameLookup(t, t', id);
      }
    }
  }

  lemma OwnThrough(policy: Clients, t: Table, t': Table, f: Flight)
    requires Checked(policy, t, f) && Own(policy, t, f) && Checked(policy, t', f)
    requires Lookup(t', f.id) == Lookup(t, f.id) ||
      (StaysVisible(policy[f.client], t, t', f.id) && (Lookup(t', f.id).Some? ==> Lookup(t, f.id).Some?))
    ensures Own(policy, t', f)
  {
  }

  /** Ids already drawn come to no new route. */
  lemma NoReturn(policy: Clients, s: Site, size: nat, e: Event, id: nat)
    requires Sound(policy, s) && Draws(s, e) && id < s.table.next && Lookup(s.table, id).None?
    ensures Lookup(Next(policy, s, size, e).table, id).None?
  {
    StepChanges(policy, s, size, e);
    if Next(policy, s, size, e).table != s.table {
      assert ChangesAt(Mine(policy[Actor(s, e).value]), s.table, Next(policy, s, size, e).table, id);
    }
  }

  lemma OwnKept(policy: Clients, s: Site, size: nat, e: Event, f: Flight)
    requires AllOwn(policy, s) && AllStored(policy) && Draws(s, e)
    requires Checked(policy, s.table, f) && Own(policy, s.table, f)
    requires Checked(policy, Next(policy, s, size, e).table, f)
    ensures Own(policy, Next(policy, s, size, e).table, f)
  {
    var t' := Next(policy, s, size, e).table;
    if Lookup(s.table, f.id).None? {
      NoReturn(policy, s, size, e, f.id);
    } else if Actor(s, e) != Some(f.client) {
      OthersLeaveMine(policy, s, size, e, f.client, f.id, Lookup(s.table, f.id));
      OwnThrough(policy, s.table, t', f);
    } else if e.Arrive? {
      ArriveStaysVisible(policy, s, size, e, f.id);
      OwnThrough(policy, s.table, t', f);
    } else {
      LandStaysVisible(policy, s, e.k, e.net, f.id);
      OwnThrough(policy, s.table, t', f);
    }
  }

  lemma LookedUpIsOwn(policy: Clients, t: Table, f: Flight, net: Net)
    requires ValidTable(t) && f.client in policy && Checked(policy, t, f)
    requires OwnRoute(policy[f.client], t, Some(f.id), net).Success?
    ensures Own(policy, t, f)
  {
    LookUpFinds(policy[f.client], t, Some(f.id), net);
  }

  /** Every check, of tunnel and of name, still holds when its change lands, in every interleaving. */
  lemma OwnStep(policy: Clients, s: Site, size: nat, e: Event)
    requires AllOwn(policy, s) && AllStored(policy) && Draws(s, e)
    ensures AllOwn(policy, Next(policy, s, size, e))
  {
    var s' := Next(policy, s, size, e);
    SoundStep(policy, s, size, e);
    forall i | 0 <= i < |s'.flights|
      ensures Own(policy, s'.table, s'.flights[i])
    {
      FlightOwn(policy, s, size, e, i);
    }
  }

  /**
   Every reachable state: in any run from a site with nothing in flight, every change still to land is to a
   route that is, if it is live at all, the client's own, on its tunnel and under a name it may manage.
   */
  lemma {:induction false} OwnRun(policy: Clients, s: Site, size: nat, es: seq<Event>)
    requires AllOwn(policy, s) && AllStored(policy) && DrawsAll(policy, s, size, es)
    ensures AllOwn(policy, Run(policy, s, size, es))
    decreases |es|
  {
    if es != [] {
      OwnStep(policy, s, size, es[0]);
      OwnRun(policy, Next(policy, s, size, es[0]), size, es[1..]);
    }
  }

  lemma NothingInFlight(policy: Clients, t: Table, size: nat, es: seq<Event>)
    requires WellDivided(policy) && AllStored(policy) && ValidTable(t) && DrawsAll(policy, Site(t, []), size, es)
    ensures AllOwn(policy, Run(policy, Site(t, []), size, es))
  {
    OwnRun(policy, Site(t, []), size, es);
  }

  lemma FlightOwn(policy: Clients, s: Site, size: nat, e: Event, i: nat)
    requires AllOwn(policy, s) && AllStored(policy) && Draws(s, e)
    requires Sound(policy, Next(policy, s, size, e)) && i < |Next(policy, s, size, e).flights|
    ensures Own(policy, Next(policy, s, size, e).table, Next(policy, s, size, e).flights[i])
  {
    var s' := Next(policy, s, size, e);
    var f := s'.flights[i];
    FlightsFrom(policy, s, size, e, i);
    if f in s.flights {
      OwnKept(policy, s, size, e, f);
    } else {
      LookedUpIsOwn(policy, s.table, f, e.net);
    }
  }

  /** The flight has just been looked up by its own client. */
  ghost predicate JustLookedUp(policy: Clients, s: Site, e: Event, f: Flight) {
    && e.Arrive? && e.who == Some(f.client) && f.client in policy
    && OwnRoute(policy[f.client], s.table, Some(f.id), e.net).Success?
  }

  lemma ArrivalFlights(policy: Clients, s: Site, size: nat, e: Event, f: Flight)
    requires e.Arrive? && f in Next(policy, s, size, e).flights && f !in s.flights
    ensures JustLookedUp(policy, s, e, f) && Next(policy, s, size, e).table == s.table
  {
  }

  lemma LandingFlights(policy: Clients, s: Site, size: nat, e: Event, f: Flight)
    requires e.Land? && f in Next(policy, s, size, e).flights
    ensures f in s.flights
  {
  }

  /** A flight was in flight before, or has just been looked up. */
  lemma FlightsFrom(policy: Clients, s: Site, size: nat, e: Event, i: nat)
    requires i < |Next(policy, s, size, e).flights|
    ensures var f := Next(policy, s, size, e).flights[i];
      f in s.flights || (JustLookedUp(policy, s, e, f) && Next(policy, s, size, e).table == s.table)
  {
    var f := Next(policy, s, size, e).flights[i];
    if e.Land? {
      LandingFlights(policy, s, size, e, f);
    } else if f !in s.flights {
      ArrivalFlights(policy, s, size, e, f);
    }
  }

  // Comments.

  /** What an owned client may leave on a route: its own tag, the comment that was there, or none. */
  predicate TagAllowed(owner: string, before: Option<Route>, after: Route) {
    || RouteOwner(after.comment) == Some(owner)
    || (before.Some? && (after.comment == before.value.comment || after.comment == ""))
  }

  lemma CreateTags(client: ClientPolicy, b: Body)
    requires client.owner.Some? && MayCreate(client, b)
    ensures RouteOwner(CommentOf(b.comment)) == client.owner
  {
    AllowedCommentIsOwn(client, b.comment.s, true);
  }

  lemma PatchTags(client: ClientPolicy, r: Route, b: Body)
    requires client.owner.Some? && MayPatch(client, b)
    ensures TagAllowed(client.owner.value, Some(r), Edited(r, EditOf(b)))
  {
    if b.comment.Str? {
      AllowedCommentIsOwn(client, b.comment.s, false);
    }
  }

  /** An owned client's step writes no owner's tag but its own on any route. */
  lemma OwnTagOnly(policy: Clients, s: Site, size: nat, e: Event, id: nat)
    requires Sound(policy, s) && Draws(s, e)
    requires Actor(s, e).Some? && Actor(s, e).value in policy && policy[Actor(s, e).value].owner.Some?
    ensures var before, after := Lookup(s.table, id), Lookup(Next(policy, s, size, e).table, id);
      after.Some? ==> TagAllowed(policy[Actor(s, e).value].owner.value, before, after.value)
  {
    match e
    case Arrive(who, req, net, draw) =>
      if req.CreateRoute? && req.body.Some? && MayCreate(policy[who.value], req.body.value) {
        CreateTags(policy[who.value], req.body.value);
        PostTags(s.table, draw, req.body.value, net(ChangeCall), id);
      }
    case Land(k, net) =>
      var f := s.flights[k];
      if f.Deleting? {
        DeleteGone(policy, s.table, f, net(ChangeCall), id);
      } else if MayPatch(policy[f.client], f.body) {
        PatchWrites(policy[f.client], s.table, f.id, f.body, net(ChangeCall), id);
      }
  }

  lemma DeleteGone(policy: Clients, t: Table, f: Flight, reply: Reply, id: nat)
    requires ValidTable(t) && Checked(policy, t, f)
    ensures var after := Lookup(DeleteAt(t, f.id, reply).0, id); after.None? || after == Lookup(t, id)
  {
    DeleteChanges(Mine(policy[f.client]), t, f.id, reply);
  }

  lemma PostTags(t: Table, draw: nat, b: Body, reply: Reply, id: nat)
    requires ValidTable(t) && draw >= t.next && b.hostname.Str? && b.tunnel.Str?
    ensures var after := Lookup(PostTo(t, draw, b.hostname.s, b.tunnel.s, CommentOf(b.comment), reply).0, id);
      after.None? || after == Lookup(t, id) || after.value.comment == CommentOf(b.comment)
  {
    var t' := PostTo(t, draw, b.hostname.s, b.tunnel.s, CommentOf(b.comment), reply).0;
    PostKeeps(t, draw, b.hostname.s, b.tunnel.s, CommentOf(b.comment), reply);
    if Lookup(t', id).Some? {
      LookupIs(t', id, Lookup(t', id).value);
      LookupIs(t, id, Lookup(t', id).value);
    }
  }

  lemma PatchWrites(client: ClientPolicy, t: Table, target: nat, b: Body, reply: Reply, id: nat)
    requires ValidTable(t) && client.owner.Some? && MayPatch(client, b)
    ensures var after := Lookup(PatchAt(t, target, EditOf(b), reply).0, id);
      after.Some? ==> TagAllowed(client.owner.value, Lookup(t, id), after.value)
  {
    var t' := PatchAt(t, target, EditOf(b), reply).0;
    PatchKeeps(t, target, EditOf(b), reply);
    if t' != t {
      var i := Find(t.routes, target).value;
      var r' := Edited(t.routes[i], EditOf(b));
      PatchTags(client, t.routes[i], b);
      if id == target {
        assert t'.routes[i] == r';
        LookupIs(t', id, r');
      } else {
        OthersStay(t.routes, i, r', id);
        SameLookup(t, t', id);
      }
    }
  }

  /** One step towards a route on this client's tunnels: nobody writes a tag there but the client, and it its own. */
  lemma TagStep(policy: Clients, s: Site, size: nat, e: Event, c: string, id: nat)
    requires Sound(policy, s) && Draws(s, e) && c in policy && policy[c].owner.Some?
    requires var after := Lookup(Next(policy, s, size, e).table, id);
      after.Some? && after.value.tunnel in Mine(policy[c])
    ensures var before, after := Lookup(s.table, id), Lookup(Next(policy, s, size, e).table, id);
      TagAllowed(policy[c].owner.value, before, after.value)
    ensures Lookup(s.table, id).Some? ==> Lookup(s.table, id).value.tunnel in Mine(policy[c])
  {
    var t' := Next(policy, s, size, e).table;
    StepChanges(policy, s, size, e);
    if t' != s.table {
      assert ChangesAt(Mine(policy[Actor(s, e).value]), s.table, t', id);
      if Actor(s, e) == Some(c) {
        OwnTagOnly(policy, s, size, e, id);
      } else {
        MineApart(policy, c, Actor(s, e).value);
      }
    }
  }

  /** Over a run: the owner's own tag, the comment the route began with, or none. */
  predicate TagKept(owner: string, first: Option<Route>, last: Route) {
    || RouteOwner(last.comment) == Some(owner) || last.comment == ""
    || (first.Some? && last.comment == first.value.comment)
  }

  lemma TagsChain(owner: string, first: Option<Route>, middle: Option<Route>, last: Route)
    requires middle.Some? ==> TagKept(owner, first, middle.value)
    requires TagAllowed(owner, middle, last)
    ensures TagKept(owner, first, last)
  {
  }

  lemma RunLast(policy: Clients, s: Site, size: nat, es: seq<Event>)
    requires es != [] && DrawsAll(policy, s, size, es)
    ensures var front, last := es[..|es| - 1], es[|es| - 1];
      && DrawsAll(policy, s, size, front) && Draws(Run(policy, s, size, front), last)
      && Run(policy, s, size, es) == Next(policy, Run(policy, s, size, front), size, last)
    decreases |es|
  {
    if |es| > 1 {
      assert es[1..][..|es| - 2] == es[..|es| - 1][1..];
      RunLast(policy, Next(policy, s, size, es[0]), size, es[1..]);
    }
  }

  /**
   Over whole interleaved runs: the comment of a route on an owned client's tunnels is the one it had at
   the beginning, or the client's own tag, or none.
   */
  lemma {:induction false} TagsForTheRun(policy: Clients, s: Site, size: nat, es: seq<Event>, c: string, id: nat)
    requires Sound(policy, s) && DrawsAll(policy, s, size, es) && c in policy && policy[c].owner.Some?
    requires var after := Lookup(Run(policy, s, size, es).table, id);
      after.Some? && after.value.tunnel in Mine(policy[c])
    ensures TagKept(policy[c].owner.value, Lookup(s.table, id), Lookup(Run(policy, s, size, es).table, id).value)
    decreases |es|
  {
    if es != [] {
      var front, last := es[..|es| - 1], es[|es| - 1];
      var middle := Run(policy, s, size, front);
      RunLast(policy, s, size, es);
      SoundRun(policy, s, size, front);
      TagStep(policy, middle, size, last, c, id);
      if Lookup(middle.table, id).Some? {
        TagsForTheRun(policy, s, size, front, c, id);
      }
      TagsChain(policy[c].owner.value, Lookup(s.table, id), Lookup(middle.table, id),
        Lookup(Run(policy, s, size, es).table, id).value);
    }
  }
}
