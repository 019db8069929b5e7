/** The Cloudflare account as a client sees it: listings, and calls that may fail or lose their answer. */
module AccountApi {
  import opened Wrappers
  import opened Text
  import opened Routes

  class Account {
    var store: Store
    /** Every mutating call attempted, in order. */
    var calls: seq<Call>
    /** How many account-wide listings were asked for. */
    var accountLists: nat

    constructor (store: Store)
      ensures this.store == store && calls == [] && accountLists == 0
    {
      this.store, this.calls, this.accountLists := store, [], 0;
    }

    /** The routes bound to one tunnel, in whatever order the account keeps them. */
    method ListTunnel(tunnel: string, reply: Reply) returns (r: Result<seq<Route>, ()>)
      requires ValidStore(store)
      ensures r.Success? <==> reply.Works?
      ensures r.Success? ==> ListingOf(store, Some(tunnel), r.value)
    {
      if !reply.Works? {
        return Failure(());
      }
      var rs := Listing(Some(tunnel));
      return Success(rs);
    }

    /** Every route in the account. */
    method ListAll(reply: Reply) returns (r: Result<seq<Route>, ()>)
      requires ValidStore(store)
      modifies this`accountLists
      ensures accountLists == old(accountLists) + 1
      ensures r.Success? <==> reply.Works?
      ensures r.Success? ==> ListingOf(store, None, r.value)
    {
      accountLists := accountLists + 1;
      if !reply.Works? {
        return Failure(());
      }
      var rs := Listing(None);
      return Success(rs);
    }

    method Listing(scope: Option<string>) returns (rs: seq<Route>)
      requires ValidStore(store)
      ensures ListingOf(store, scope, rs)
    {
      rs := [];
      var dead := store.dead;
      while dead != {}
        invariant dead <= store.dead
        invariant forall i :: 0 <= i < |rs| ==> rs[i].deleted
      {
        var r :| r in dead;
        rs, dead := if InScope(scope, r) then rs + [r] else rs, dead - {r};
      }
      var left := store.live.Keys;
      while left != {}
        invariant left <= store.live.Keys
        invariant forall h :: h in store.live && h !in left && InScope(scope, store.live[h]) ==> store.live[h] in rs
        invariant forall i :: 0 <= i < |rs| && !rs[i].deleted ==>
          Listed(store, scope, rs[i]) && Lower(rs[i].hostname) !in left
        invariant forall i, j :: 0 <= i < j < |rs| && !rs[i].deleted && !rs[j].deleted ==>
          Lower(rs[i].hostname) != Lower(rs[j].hostname)
      {
        var h :| h in left;
        rs, left := if InScope(scope, store.live[h]) then rs + [store.live[h]] else rs, left - {h};
      }
    }

    /** One create, retarget, comment patch or delete. */
    method Send(c: Call, reply: Reply) returns (out: Outcome)
      modifies this`store, this`calls
      ensures (store, out) == Perform(old(store), c, reply)
      ensures calls == old(calls) + [c]
    {
      calls := calls + [c];
      var (s, o) := Perform(store, c, reply);
      store := s;
      return o;
    }
  }
}
