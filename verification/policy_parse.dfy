/**
 Reading the policy. It refuses anything ambiguous, because a policy misread would grant access: unknown
 keys, empty lists, blank entries, and a tunnel claimed by two clients.
 */
module PolicyParse {
  import opened Wrappers
  import opened Text
  import opened Sorting
  import opened Policy

  /** A parsed JSON value; an object has each key once. */
  datatype Json =
    | JNull | JBool(b: bool) | JNumber | JString(s: string) | JArray(items: seq<Json>) | JObject(fields: seq<Field>)

  datatype Field = Field(key: string, value: Json)

  datatype PolicyError =
    | NotJson | NotAnObject | NoClients | EmptyClientId | ClientNotAnObject | UnknownKey
    | BadTunnels | BadSuffixes | BadOwner | SharedTunnel

  type Clients = map<string, ClientPolicy>

  predicate OneEachKey(fields: seq<Field>) {
    forall i, j :: 0 <= i < j < |fields| ==> fields[i].key != fields[j].key
  }

  function FieldOf(fields: seq<Field>, key: string): Option<Json> {
    if fields == [] then None else if fields[0].key == key then Some(fields[0].value) else FieldOf(fields[1..], key)
  }

  predicate NonBlank(v: Json) {
    v.JString? && TrimSpace(v.s) != ""
  }

  predicate IsStringList(v: Option<Json>) {
    v.Some? && v.value.JArray? && v.value.items != [] && forall i :: 0 <= i < |v.value.items| ==>
      NonBlank(v.value.items[i])
  }

  function Strings(v: Option<Json>): (ss: seq<string>)
    requires IsStringList(v)
    ensures |ss| == |v.value.items| && forall i :: 0 <= i < |ss| ==> ss[i] == TrimSpace(v.value.items[i].s)
  {
    seq(|v.value.items|, i requires 0 <= i < |v.value.items| => TrimSpace(v.value.items[i].s))
  }

  method StringList(v: Option<Json>, error: PolicyError) returns (r: Result<seq<string>, PolicyError>)
    ensures r == if IsStringList(v) then Success(Strings(v)) else Failure(error)
  {
    if v.None? || !v.value.JArray? || v.value.items == [] {
      return Failure(error);
    }
    var out: seq<string> := [];
    for i := 0 to |v.value.items|
      invariant |out| == i
      invariant forall j :: 0 <= j < i ==> NonBlank(v.value.items[j]) && out[j] == TrimSpace(v.value.items[j].s)
    {
      if !NonBlank(v.value.items[i]) {
        return Failure(error);
      }
      out := out + [TrimSpace(v.value.items[i].s)];
    }
    assert out == Strings(v);
    return Success(out);
  }

  function Lowered(ss: seq<string>): (r: seq<string>)
    ensures |r| == |ss| && forall i :: 0 <= i < |ss| ==> r[i] == Lower(ss[i])
  {
    seq(|ss|, i requires 0 <= i < |ss| => Lower(ss[i]))
  }

  function Normalized(ss: seq<string>): (r: seq<string>)
    ensures |r| == |ss| && forall i :: 0 <= i < |ss| ==> r[i] == NormalizeHostname(ss[i])
  {
    seq(|ss|, i requires 0 <= i < |ss| => NormalizeHostname(ss[i]))
  }

  predicate IsOwner(v: Json) {
    v.JString? && IsToken(v.s) && '/' !in v.s
  }

  const CLIENT_KEYS := ["owner", "tunnels", "suffixes"]

  predicate KnownKeys(entry: seq<Field>) {
    forall i :: 0 <= i < |entry| ==> entry[i].key in CLIENT_KEYS
  }

  /** Suffixes that mean something: names without a wildcard. */
  predicate IsSuffixList(v: Option<Json>) {
    IsStringList(v) && forall i :: 0 <= i < |v.value.items| ==>
      IsSuffix(NormalizeHostname(TrimSpace(v.value.items[i].s)))
  }

  predicate IsSuffix(s: string) {
    s != "" && '*' !in s
  }

  method SuffixList(v: Option<Json>) returns (r: Result<seq<string>, PolicyError>)
    ensures r == if IsSuffixList(v) then Success(Normalized(Strings(v))) else Failure(BadSuffixes)
  {
    var listed := StringList(v, BadSuffixes);
    if listed.Failure? {
      return Failure(listed.error);
    }
    var suffixes := Normalized(listed.value);
    var ok := AllSuffixes(suffixes);
    return if ok then Success(suffixes) else Failure(BadSuffixes);
  }

  method AllSuffixes(suffixes: seq<string>) returns (ok: bool)
    ensures ok <==> forall i :: 0 <= i < |suffixes| ==> IsSuffix(suffixes[i])
  {
    for i := 0 to |suffixes|
      invariant forall j :: 0 <= j < i ==> IsSuffix(suffixes[j])
    {
      if !IsSuffix(suffixes[i]) {
        return false;
      }
    }
    return true;
  }

  /** One client's entry, well formed. */
  predicate IsClient(entry: seq<Field>) {
    && KnownKeys(entry)
    && IsStringList(FieldOf(entry, "tunnels")) && IsSuffixList(FieldOf(entry, "suffixes"))
    && (FieldOf(entry, "owner").Some? ==> IsOwner(FieldOf(entry, "owner").value))
  }

  function ClientOf(entry: seq<Field>): ClientPolicy
    requires IsClient(entry)
  {
    ClientPolicy(
      if FieldOf(entry, "owner").Some? then Some(FieldOf(entry, "owner").value.s) else None,
      Distincts(Lowered(Strings(FieldOf(entry, "tunnels")))),
      Distincts(Normalized(Strings(FieldOf(entry, "suffixes")))))
  }

  predicate IsEntry(f: Field) {
    TrimSpace(f.key) != "" && f.value.JObject? && IsClient(f.value.fields)
  }

  /** A client by its id. */
  datatype Named = Named(id: string, client: ClientPolicy)

  function Read(f: Field): Named
    requires IsEntry(f)
  {
    Named(f.key, ClientOf(f.value.fields))
  }

  ghost predicate AllEntries(fields: seq<Field>) {
    forall i :: 0 <= i < |fields| ==> IsEntry(fields[i])
  }

  ghost function ReadAll(fields: seq<Field>): (ns: seq<Named>)
    requires AllEntries(fields)
    ensures |ns| == |fields| && forall i :: 0 <= i < |ns| ==> ns[i] == Read(fields[i])
  {
    seq(|fields|, i requires 0 <= i < |fields| => Read(fields[i]))
  }

  ghost predicate NoSharedTunnel(ns: seq<Named>) {
    forall i, j, t :: 0 <= i < |ns| && 0 <= j < |ns| && i != j && t in ns[i].client.tunnels ==>
      t !in ns[j].client.tunnels
  }

  ghost predicate DistinctIds(ns: seq<Named>) {
    forall i, j :: 0 <= i < j < |ns| ==> ns[i].id != ns[j].id
  }

  /** Which documents are accepted: well-formed entries, at least one, and no tunnel under two clients. */
  ghost predicate Accepted(fields: seq<Field>) {
    fields != [] && AllEntries(fields) && NoSharedTunnel(ReadAll(fields))
  }

  ghost predicate IsPolicy(ns: seq<Named>, policy: Clients) {
    && (forall k :: k in policy <==> exists i :: 0 <= i < |ns| && ns[i].id == k)
    && (forall i :: 0 <= i < |ns| ==> ns[i].id in policy && policy[ns[i].id] == ns[i].client)
  }

  // What the document says, field by field.

  ghost predicate HasField(entry: seq<Field>, key: string, v: Json) {
    exists j :: 0 <= j < |entry| && entry[j] == Field(key, v)
  }

  /** The document's objects have each key once, as parsed JSON does. */
  ghost predicate Proper(fields: seq<Field>) {
    && OneEachKey(fields)
    && forall i :: 0 <= i < |fields| && fields[i].value.JObject? ==> OneEachKey(fields[i].value.fields)
  }

  /** Under this key the entry lists this string. */
  ghost predicate Lists(entry: seq<Field>, key: string, s: string) {
    exists items :: HasField(entry, key, JArray(items)) && JString(s) in items
  }

  /** The client is what its entry says: this owner or none, these tunnels and these suffixes, each once. */
  ghost predicate AsWritten(entry: seq<Field>, client: ClientPolicy) {
    && (forall o :: client.owner == Some(o) <==> HasField(entry, "owner", JString(o)))
    && (forall t :: t in client.tunnels <==> exists s :: Lists(entry, "tunnels", s) && Lower(TrimSpace(s)) == t)
    && (forall u :: u in client.suffixes <==>
          exists s :: Lists(entry, "suffixes", s) && NormalizeHostname(TrimSpace(s)) == u)
    && Distinct(client.tunnels) && Distinct(client.suffixes)
  }

  /** A list under this key, of strings that are usable. */
  ghost predicate ListOf(entry: seq<Field>, key: string, usable: string -> bool) {
    exists items: seq<Json> :: HasField(entry, key, JArray(items)) && items != [] &&
      forall j :: 0 <= j < |items| ==> items[j].JString? && usable(items[j].s)
  }

  predicate NotBlank(s: string) {
    TrimSpace(s) != ""
  }

  /** A name without a wildcard, once normalised. */
  predicate Names(s: string) {
    NormalizeHostname(TrimSpace(s)) != "" && '*' !in NormalizeHostname(TrimSpace(s))
  }

  /** An owner id is not empty and holds neither white space nor a slash. */
  ghost predicate PlainOwner(v: Json) {
    v.JString? && v.s != "" && forall j :: 0 <= j < |v.s| ==> !IsSpace(v.s[j]) && v.s[j] != '/'
  }

  /** Known keys, tunnels that are not blank, suffixes that mean something, and a plain owner if any. */
  ghost predicate WellFormed(entry: seq<Field>) {
    && (forall j :: 0 <= j < |entry| ==>
          entry[j].key == "owner" || entry[j].key == "tunnels" || entry[j].key == "suffixes")
    && ListOf(entry, "tunnels", NotBlank) && ListOf(entry, "suffixes", Names)
    && (forall v :: HasField(entry, "owner", v) ==> PlainOwner(v))
  }

  /** An id, and a well-formed entry. */
  ghost predicate WellFormedField(f: Field) {
    TrimSpace(f.key) != "" && f.value.JObject? && WellFormed(f.value.fields)
  }

  /** Two entries list one tunnel, in whatever spelling. */
  ghost predicate ShareTunnel(a: seq<Field>, b: seq<Field>) {
    exists s, t :: Lists(a, "tunnels", s) && Lists(b, "tunnels", t) && Lower(TrimSpace(s)) == Lower(TrimSpace(t))
  }

  ghost predicate NoneShare(fields: seq<Field>)
    requires forall i :: 0 <= i < |fields| ==> fields[i].value.JObject?
  {
    forall i, j :: 0 <= i < |fields| && 0 <= j < |fields| && i != j ==>
      !ShareTunnel(fields[i].value.fields, fields[j].value.fields)
  }

  /** At least one client, each with an id and a well-formed entry, and no tunnel under two. */
  ghost predicate Unambiguous(fields: seq<Field>) {
    && fields != []
    && (forall i :: 0 <= i < |fields| ==> WellFormedField(fields[i]))
    && NoneShare(fields)
  }

  /** The policy has the document's clients, each as written. */
  ghost predicate PolicyAsWritten(fields: seq<Field>, policy: Clients) {
    && (forall k :: k in policy ==> exists i :: 0 <= i < |fields| && fields[i].key == k)
    && (forall i :: 0 <= i < |fields| ==>
          && fields[i].value.JObject? && fields[i].key in policy
          && AsWritten(fields[i].value.fields, policy[fields[i].key]))
  }

  lemma {:induction false} FieldFound(entry: seq<Field>, key: string, v: Json)
    requires OneEachKey(entry)
    ensures FieldOf(entry, key) == Some(v) <==> HasField(entry, key, v)
  {
    if entry != [] {
      FieldFound(entry[1..], key, v);
      assert entry == [entry[0]] + entry[1..];
      if HasField(entry[1..], key, v) {
        var j :| 0 <= j < |entry| - 1 && entry[1..][j] == Field(key, v);
        assert entry[j + 1] == Field(key, v);
      }
      if HasField(entry, key, v) {
        var j :| 0 <= j < |entry| && entry[j] == Field(key, v);
        assert j > 0 ==> entry[1..][j - 1] == Field(key, v);
      }
    }
  }

  /** The one list under the key. */
  lemma TheList(entry: seq<Field>, key: string, items: seq<Json>)
    requires OneEachKey(entry) && FieldOf(entry, key) == Some(JArray(items))
    ensures forall s :: Lists(entry, key, s) <==> JString(s) in items
  {
    FieldFound(entry, key, JArray(items));
    forall other | HasField(entry, key, JArray(other))
      ensures other == items
    {
      FieldFound(entry, key, JArray(other));
    }
  }

  lemma LoweredAre(v: Option<Json>, t: string)
    requires IsStringList(v)
    ensures t in Distincts(Lowered(Strings(v))) <==>
      exists s :: JString(s) in v.value.items && Lower(TrimSpace(s)) == t
  {
    var all := Lowered(Strings(v));
    DistinctsSameElements(all);
    if t in all {
      var i :| 0 <= i < |all| && all[i] == t;
      assert v.value.items[i] == JString(v.value.items[i].s);
    }
    if s :| JString(s) in v.value.items && Lower(TrimSpace(s)) == t {
      var i :| 0 <= i < |v.value.items| && v.value.items[i] == JString(s);
      assert all[i] == t;
    }
  }

  lemma NormalizedAre(v: Option<Json>, u: string)
    requires IsStringList(v)
    ensures u in Distincts(Normalized(Strings(v))) <==>
      exists s :: JString(s) in v.value.items && NormalizeHostname(TrimSpace(s)) == u
  {
    var all := Normalized(Strings(v));
    DistinctsSameElements(all);
    if u in all {
      var i :| 0 <= i < |all| && all[i] == u;
      assert v.value.items[i] == JString(v.value.items[i].s);
    }
    if s :| JString(s) in v.value.items && NormalizeHostname(TrimSpace(s)) == u {
      var i :| 0 <= i < |v.value.items| && v.value.items[i] == JString(s);
      assert all[i] == u;
    }
  }

  lemma OwnerAsWritten(entry: seq<Field>)
    requires IsClient(entry) && OneEachKey(entry)
    ensures forall o :: ClientOf(entry).owner == Some(o) <==> HasField(entry, "owner", JString(o))
  {
    forall o
      ensures ClientOf(entry).owner == Some(o) <==> HasField(entry, "owner", JString(o))
    {
      FieldFound(entry, "owner", JString(o));
    }
  }

  lemma TunnelsAsWritten(entry: seq<Field>)
    requires IsClient(entry) && OneEachKey(entry)
    ensures forall t :: t in ClientOf(entry).tunnels <==>
      exists s :: Lists(entry, "tunnels", s) && Lower(TrimSpace(s)) == t
    ensures Distinct(ClientOf(entry).tunnels)
  {
    var v := FieldOf(entry, "tunnels");
    TheList(entry, "tunnels", v.value.items);
    DistinctsSameElements(Lowered(Strings(v)));
    forall t
      ensures t in ClientOf(entry).tunnels <==> exists s :: Lists(entry, "tunnels", s) && Lower(TrimSpace(s)) == t
    {
      LoweredAre(v, t);
    }
  }

  lemma SuffixesAsWritten(entry: seq<Field>)
    requires IsClient(entry) && OneEachKey(entry)
    ensures forall u :: u in ClientOf(entry).suffixes <==>
      exists s :: Lists(entry, "suffixes", s) && NormalizeHostname(TrimSpace(s)) == u
    ensures Distinct(ClientOf(entry).suffixes)
  {
    var v := FieldOf(entry, "suffixes");
    TheList(entry, "suffixes", v.value.items);
    DistinctsSameElements(Normalized(Strings(v)));
    forall u
      ensures u in ClientOf(entry).suffixes <==>
        exists s :: Lists(entry, "suffixes", s) && NormalizeHostname(TrimSpace(s)) == u
    {
      NormalizedAre(v, u);
    }
  }

  /** An entry is read as written. */
  lemma ClientAsWritten(entry: seq<Field>)
    requires IsClient(entry) && OneEachKey(entry)
    ensures AsWritten(entry, ClientOf(entry))
  {
    OwnerAsWritten(entry);
    TunnelsAsWritten(entry);
    SuffixesAsWritten(entry);
  }

  lemma OneAsWritten(fields: seq<Field>, policy: Clients, i: nat)
    requires Proper(fields) && AllEntries(fields) && IsPolicy(ReadAll(fields), policy) && i < |fields|
    ensures fields[i].key in policy && AsWritten(fields[i].value.fields, policy[fields[i].key])
  {
    var f := fields[i];
    assert ReadAll(fields)[i] == Named(f.key, ClientOf(f.value.fields));
    ClientAsWritten(f.value.fields);
  }

  lemma IdsAreKeys(fields: seq<Field>)
    requires AllEntries(fields)
    ensures forall i :: 0 <= i < |fields| ==> ReadAll(fields)[i].id == fields[i].key
  {
    assert forall i :: 0 <= i < |fields| ==> ReadAll(fields)[i] == Read(fields[i]);
  }

  lemma NoOtherClient(fields: seq<Field>, ns: seq<Named>, policy: Clients, k: string)
    requires |ns| == |fields| && (forall i :: 0 <= i < |ns| ==> ns[i].id == fields[i].key)
    requires IsPolicy(ns, policy) && k in policy
    ensures exists i :: 0 <= i < |fields| && fields[i].key == k
  {
    var i :| 0 <= i < |ns| && ns[i].id == k;
    assert fields[i].key == k;
  }

  lemma PolicyIsAsWritten(fields: seq<Field>, policy: Clients)
    requires Proper(fields) && AllEntries(fields) && IsPolicy(ReadAll(fields), policy)
    ensures PolicyAsWritten(fields, policy)
  {
    IdsAreKeys(fields);
    forall k | k in policy
      ensures exists i :: 0 <= i < |fields| && fields[i].key == k
    {
      NoOtherClient(fields, ReadAll(fields), policy, k);
    }
    forall i | 0 <= i < |fields|
      ensures fields[i].value.JObject? && fields[i].key in policy
      ensures AsWritten(fields[i].value.fields, policy[fields[i].key])
    {
      assert IsEntry(fields[i]);
      OneAsWritten(fields, policy, i);
    }
  }

  // Which documents are accepted.

  lemma ListByField(entry: seq<Field>, key: string, usable: string -> bool)
    requires OneEachKey(entry)
    ensures var v := FieldOf(entry, key);
      ListOf(entry, key, usable) <==>
        && v.Some? && v.value.JArray? && v.value.items != []
        && forall j :: 0 <= j < |v.value.items| ==> v.value.items[j].JString? && usable(v.value.items[j].s)
  {
    var v := FieldOf(entry, key);
    if v.Some? && v.value.JArray? {
      FieldFound(entry, key, JArray(v.value.items));
    }
    forall items | HasField(entry, key, JArray(items))
      ensures v == Some(JArray(items))
    {
      FieldFound(entry, key, JArray(items));
    }
  }

  lemma OwnerByField(entry: seq<Field>)
    requires OneEachKey(entry)
    ensures (forall v :: HasField(entry, "owner", v) ==> PlainOwner(v)) <==>
      (FieldOf(entry, "owner").Some? ==> IsOwner(FieldOf(entry, "owner").value))
  {
    if FieldOf(entry, "owner").Some? {
      FieldFound(entry, "owner", FieldOf(entry, "owner").value);
    }
    forall v | HasField(entry, "owner", v)
      ensures FieldOf(entry, "owner") == Some(v)
    {
      FieldFound(entry, "owner", v);
    }
  }

  lemma NamesNothing(s: string)
    ensures TrimSpace(s) == "" ==> NormalizeHostname(TrimSpace(s)) == ""
  {
  }

  lemma TunnelsByField(entry: seq<Field>)
    requires OneEachKey(entry)
    ensures IsStringList(FieldOf(entry, "tunnels")) <==> ListOf(entry, "tunnels", NotBlank)
  {
    ListByField(entry, "tunnels", NotBlank);
  }

  lemma SuffixListByItems(v: Option<Json>)
    ensures IsSuffixList(v) <==>
      && v.Some? && v.value.JArray? && v.value.items != []
      && forall j :: 0 <= j < |v.value.items| ==> v.value.items[j].JString? && Names(v.value.items[j].s)
  {
    if v.Some? && v.value.JArray? {
      forall j | 0 <= j < |v.value.items| && v.value.items[j].JString?
        ensures Names(v.value.items[j].s) <==>
          NonBlank(v.value.items[j]) && IsSuffix(NormalizeHostname(TrimSpace(v.value.items[j].s)))
      {
        NamesNothing(v.value.items[j].s);
      }
    }
  }

  lemma SuffixesByField(entry: seq<Field>)
    requires OneEachKey(entry)
    ensures IsSuffixList(FieldOf(entry, "suffixes")) <==> ListOf(entry, "suffixes", Names)
  {
    ListByField(entry, "suffixes", Names);
    SuffixListByItems(FieldOf(entry, "suffixes"));
  }

  /** An entry is accepted exactly when it is well formed. */
  lemma ClientExactly(entry: seq<Field>)
    requires OneEachKey(entry)
    ensures IsClient(entry) <==> WellFormed(entry)
  {
    TunnelsByField(entry);
    SuffixesByField(entry);
    OwnerByField(entry);
  }

  lemma SharedByText(a: seq<Field>, b: seq<Field>)
    requires IsClient(a) && OneEachKey(a) && IsClient(b) && OneEachKey(b)
    ensures ShareTunnel(a, b) <==> exists t :: t in ClientOf(a).tunnels && t in ClientOf(b).tunnels
  {
    TunnelsAsWritten(a);
    TunnelsAsWritten(b);
    if ShareTunnel(a, b) {
      var s, t :| Lists(a, "tunnels", s) && Lists(b, "tunnels", t) && Lower(TrimSpace(s)) == Lower(TrimSpace(t));
      assert Lower(TrimSpace(s)) in ClientOf(a).tunnels && Lower(TrimSpace(s)) in ClientOf(b).tunnels;
    }
    if t :| t in ClientOf(a).tunnels && t in ClientOf(b).tunnels {
      var u :| Lists(a, "tunnels", u) && Lower(TrimSpace(u)) == t;
      var v :| Lists(b, "tunnels", v) && Lower(TrimSpace(v)) == t;
    }
  }

  lemma SharedAmong(fields: seq<Field>)
    requires Proper(fields) && AllEntries(fields)
    ensures forall i :: 0 <= i < |fields| ==> fields[i].value.JObject?
    ensures NoSharedTunnel(ReadAll(fields)) <==> NoneShare(fields)
  {
    var ns := ReadAll(fields);
    forall i, j | 0 <= i < |fields| && 0 <= j < |fields| && i != j
      ensures ShareTunnel(fields[i].value.fields, fields[j].value.fields) <==>
        exists t :: t in ns[i].client.tunnels && t in ns[j].client.tunnels
    {
      SharedByText(fields[i].value.fields, fields[j].value.fields);
    }
  }

  lemma EntriesExactly(fields: seq<Field>)
    requires Proper(fields)
    ensures AllEntries(fields) <==> forall i :: 0 <= i < |fields| ==> WellFormedField(fields[i])
  {
    forall i | 0 <= i < |fields|
      ensures IsEntry(fields[i]) <==> WellFormedField(fields[i])
    {
      if fields[i].value.JObject? {
        ClientExactly(fields[i].value.fields);
      }
    }
  }

  /** A document is accepted exactly when nothing in it is ambiguous. */
  lemma AcceptedExactly(fields: seq<Field>)
    requires Proper(fields)
    ensures Accepted(fields) <==> Unambiguous(fields)
  {
    EntriesExactly(fields);
    if AllEntries(fields) {
      SharedAmong(fields);
    }
  }

  method ParseClient(entry: seq<Field>) returns (r: Result<ClientPolicy, PolicyError>)
    requires OneEachKey(entry)
    ensures r.Success? <==> WellFormed(entry)
    ensures r.Success? ==> AsWritten(entry, r.value)
    ensures r.Success? <==> IsClient(entry)
    ensures r.Success? ==> r.value == ClientOf(entry)
  {
    ClientExactly(entry);
    if IsClient(entry) {
      ClientAsWritten(entry);
    }
    for i := 0 to |entry|
      invariant forall j :: 0 <= j < i ==> entry[j].key in CLIENT_KEYS
    {
      if entry[i].key !in CLIENT_KEYS {
        return Failure(UnknownKey);
      }
    }
    var tunnels := StringList(FieldOf(entry, "tunnels"), BadTunnels);
    if tunnels.Failure? {
      return Failure(tunnels.error);
    }
    var suffixes := SuffixList(FieldOf(entry, "suffixes"));
    if suffixes.Failure? {
      return Failure(suffixes.error);
    }
    var owner := FieldOf(entry, "owner");
    if owner.Some? && !IsOwner(owner.value) {
      return Failure(BadOwner);
    }
    return Success(ClientPolicy(if owner.Some? then Some(owner.value.s) else None,
                                Distincts(Lowered(tunnels.value)), Distincts(suffixes.value)));
  }

  /** Every tunnel claimed so far, and by whom. */
  ghost predicate Claimed(policy: Clients, holder: map<string, string>) {
    && (forall t :: t in holder ==> holder[t] in policy && t in policy[holder[t]].tunnels)
    && (forall k, t :: k in policy && t in policy[k].tunnels ==> t in holder && holder[t] == k)
  }

  method ClaimTunnels(client: string, tunnels: seq<string>, holder: map<string, string>)
    returns (r: Result<map<string, string>, PolicyError>)
    ensures r.Failure? <==> exists i :: 0 <= i < |tunnels| && tunnels[i] in holder && holder[tunnels[i]] != client
    ensures r.Failure? ==> r.error == SharedTunnel
    ensures r.Success? ==> forall t :: t in r.value <==> t in holder || t in tunnels
    ensures r.Success? ==> forall t :: t in r.value ==> r.value[t] == if t in tunnels then client else holder[t]
  {
    var out := holder;
    for i := 0 to |tunnels|
      invariant forall j :: 0 <= j < i ==> tunnels[j] in holder ==> holder[tunnels[j]] == client
      invariant forall t :: t in out <==> t in holder || t in tunnels[..i]
      invariant forall t :: t in out ==> out[t] == if t in tunnels[..i] then client else holder[t]
    {
      assert tunnels[..i + 1] == tunnels[..i] + [tunnels[i]];
      if tunnels[i] in out && out[tunnels[i]] != client {
        return Failure(SharedTunnel);
      }
      out := out[tunnels[i] := client];
    }
    assert tunnels[..|tunnels|] == tunnels;
    return Success(out);
  }

  lemma PolicyGrows(ns: seq<Named>, policy: Clients, n: Named)
    requires IsPolicy(ns, policy) && DistinctIds(ns + [n])
    ensures n.id !in policy && IsPolicy(ns + [n], policy[n.id := n.client])
  {
    var all, p := ns + [n], policy[n.id := n.client];
    assert all[|ns|] == n;
    assert forall i :: 0 <= i < |ns| ==> all[i] == ns[i] && ns[i].id != n.id;
    forall k
      ensures k in p <==> exists i :: 0 <= i < |all| && all[i].id == k
    {
      if k in policy {
        var i :| 0 <= i < |ns| && ns[i].id == k;
        assert all[i].id == k;
      }
    }
  }

  lemma ClaimGrows(policy: Clients, holder: map<string, string>, n: Named, after: map<string, string>)
    requires Claimed(policy, holder) && n.id !in policy
    requires forall t :: t in n.client.tunnels ==> t !in holder
    requires forall t :: t in after <==> t in holder || t in n.client.tunnels
    requires forall t :: t in after ==> after[t] == if t in n.client.tunnels then n.id else holder[t]
    ensures Claimed(policy[n.id := n.client], after)
  {
  }

  /** A tunnel two entries share is held when the later one is read. */
  lemma SharedIsHeld(ns: seq<Named>, policy: Clients, holder: map<string, string>, n: Named)
    requires IsPolicy(ns, policy) && Claimed(policy, holder) && NoSharedTunnel(ns)
    ensures (forall t :: t in n.client.tunnels ==> t !in holder) <==> NoSharedTunnel(ns + [n])
  {
    var all := ns + [n];
    assert all[|ns|] == n;
    if NoSharedTunnel(all) {
      forall t | t in holder
        ensures t !in n.client.tunnels
      {
        var i :| 0 <= i < |ns| && ns[i].id == holder[t];
        assert all[i] == ns[i] && t in all[i].client.tunnels;
      }
    }
  }

  lemma SharedSoFar(ns: seq<Named>, m: nat)
    requires m <= |ns| && !NoSharedTunnel(ns[..m])
    ensures !NoSharedTunnel(ns)
  {
  }

  /** Accepts exactly the well-formed, unambiguous documents, and reads each client as written. */
  method ParsePolicy(doc: Option<Json>) returns (r: Result<Clients, PolicyError>)
    requires doc.Some? && doc.value.JObject? ==> Proper(doc.value.fields)
    ensures r.Success? <==> doc.Some? && doc.value.JObject? && Unambiguous(doc.value.fields)
    ensures r.Success? ==> PolicyAsWritten(doc.value.fields, r.value) && WellDivided(r.value) && r.value != map[]
  {
    if doc.None? {
      return Failure(NotJson);
    }
    if !doc.value.JObject? {
      return Failure(NotAnObject);
    }
    r := ParseEntries(doc.value.fields);
    AcceptedExactly(doc.value.fields);
    if r.Success? {
      PolicyIsAsWritten(doc.value.fields, r.value);
      AcceptedIsWellDivided(doc.value.fields, r.value);
    }
  }

  method ParseEntries(fields: seq<Field>) returns (r: Result<Clients, PolicyError>)
    requires Proper(fields)
    ensures r.Success? <==> Accepted(fields)
    ensures r.Success? ==> IsPolicy(ReadAll(fields), r.value)
  {
    var policy: Clients, holder: map<string, string> := map[], map[];
    for i := 0 to |fields|
      invariant AllEntries(fields[..i])
      invariant Taken(ReadAll(fields[..i]), policy, holder)
    {
      if IsEntry(fields[i]) {
        ReadNext(fields, i);
      }
      ghost var ns := ReadAll(fields[..i]);
      var added := AddEntry(fields[i], ns, policy, holder);
      if added.Failure? {
        if IsEntry(fields[i]) {
          ReadPart(fields, i + 1);
        }
        return Failure(added.error);
      }
      policy, holder := added.value.0, added.value.1;
    }
    assert fields[..|fields|] == fields;
    return if fields == [] then Failure(NoClients) else Success(policy);
  }

  /** What has been read, and which client holds each tunnel so far. */
  ghost predicate Taken(ns: seq<Named>, policy: Clients, holder: map<string, string>) {
    IsPolicy(ns, policy) && Claimed(policy, holder) && NoSharedTunnel(ns)
  }

  method AddEntry(f: Field, ghost ns: seq<Named>, policy: Clients, holder: map<string, string>)
    returns (r: Result<(Clients, map<string, string>), PolicyError>)
    requires Taken(ns, policy, holder) && (IsEntry(f) ==> DistinctIds(ns + [Read(f)]))
    requires f.value.JObject? ==> OneEachKey(f.value.fields)
    ensures r.Success? <==> IsEntry(f) && NoSharedTunnel(ns + [Read(f)])
    ensures r.Success? ==> Taken(ns + [Read(f)], r.value.0, r.value.1)
  {
    var client := ParseEntry(f);
    if client.Failure? {
      return Failure(client.error);
    }
    var n := Named(f.key, client.value);
    SharedIsHeld(ns, policy, holder, n);
    PolicyGrows(ns, policy, n);
    HeldByOthers(policy, holder, n);
    var claimed := ClaimTunnels(n.id, n.client.tunnels, holder);
    if claimed.Failure? {
      return Failure(claimed.error);
    }
    ClaimGrows(policy, holder, n, claimed.value);
    return Success((policy[n.id := n.client], claimed.value));
  }

  lemma HeldByOthers(policy: Clients, holder: map<string, string>, n: Named)
    requires Claimed(policy, holder) && n.id !in policy
    ensures forall t :: t in holder ==> holder[t] != n.id
  {
  }

  lemma ReadNext(fields: seq<Field>, i: nat)
    requires i < |fields| && AllEntries(fields[..i]) && IsEntry(fields[i]) && OneEachKey(fields)
    ensures AllEntries(fields[..i + 1]) && ReadAll(fields[..i + 1]) == ReadAll(fields[..i]) + [Read(fields[i])]
    ensures DistinctIds(ReadAll(fields[..i + 1]))
  {
    PrefixNext(fields, i, fields[..i + 1]);
    PrefixKeys(fields, i + 1);
    KeysAreIds(fields[..i + 1]);
  }

  lemma PrefixNext(fields: seq<Field>, i: nat, longer: seq<Field>)
    requires i < |fields| && longer == fields[..i + 1] && AllEntries(fields[..i]) && IsEntry(fields[i])
    ensures AllEntries(longer) && ReadAll(longer) == ReadAll(fields[..i]) + [Read(fields[i])]
  {
    assert longer == fields[..i] + [fields[i]];
    EntriesNext(fields[..i], fields[i]);
  }

  lemma PrefixKeys(fields: seq<Field>, i: nat)
    requires i <= |fields| && OneEachKey(fields)
    ensures OneEachKey(fields[..i])
  {
  }

  lemma EntriesNext(fields: seq<Field>, f: Field)
    requires AllEntries(fields) && IsEntry(f)
    ensures AllEntries(fields + [f]) && ReadAll(fields + [f]) == ReadAll(fields) + [Read(f)]
  {
    var all := fields + [f];
    assert forall i :: 0 <= i < |all| ==> all[i] == if i < |fields| then fields[i] else f;
  }

  lemma KeysAreIds(fields: seq<Field>)
    requires AllEntries(fields) && OneEachKey(fields)
    ensures DistinctIds(ReadAll(fields))
  {
    assert forall i :: 0 <= i < |fields| ==> ReadAll(fields)[i].id == fields[i].key;
  }

  lemma ReadPart(fields: seq<Field>, i: nat)
    requires i <= |fields| && AllEntries(fields[..i]) && !NoSharedTunnel(ReadAll(fields[..i]))
    ensures !Accepted(fields)
  {
    if AllEntries(fields) {
      assert ReadAll(fields)[..i] == ReadAll(fields[..i]);
      SharedSoFar(ReadAll(fields), i);
    }
  }

  method ParseEntry(f: Field) returns (r: Result<ClientPolicy, PolicyError>)
    requires f.value.JObject? ==> OneEachKey(f.value.fields)
    ensures r.Success? <==> IsEntry(f)
    ensures r.Success? ==> Named(f.key, r.value) == Read(f)
  {
    if TrimSpace(f.key) == "" {
      return Failure(EmptyClientId);
    }
    if !f.value.JObject? {
      return Failure(ClientNotAnObject);
    }
    r := ParseClient(f.value.fields);
  }

  // What an accepted policy guarantees.

  /** A name without a wildcard, in lower case, without dots at its ends. */
  predicate CanonicalSuffix(s: string) {
    IsSuffix(s) && IsLower(s) && s[0] != '.' && s[|s| - 1] != '.'
  }

  /** Tunnels in the one spelling they are compared in, and suffixes that mean something. */
  ghost predicate Canonical(client: ClientPolicy) {
    && (forall t :: t in client.tunnels ==> CanonicalTunnel(t) == t) && Distinct(client.tunnels)
    && (forall s :: s in client.suffixes ==> CanonicalSuffix(s))
    && (client.owner.Some? ==> IsToken(client.owner.value) && '/' !in client.owner.value)
  }

  /** Every tunnel belongs to one client. */
  ghost predicate WellDivided(policy: Clients) {
    && (forall c :: c in policy ==> Canonical(policy[c]))
    && (forall c, d, t :: c in policy && d in policy && c != d && t in policy[c].tunnels ==> t !in policy[d].tunnels)
  }

  lemma TrimmedIsUnspaced(s: string)
    ensures Unspaced(TrimSpace(s))
  {
    TrimLeftUnspaced(s);
    TrimRightUnspaced(TrimLeft(s));
  }

  lemma {:induction false} TrimLeftUnspaced(s: string)
    ensures TrimLeft(s) == "" || !IsSpace(TrimLeft(s)[0])
  {
    if s != "" && IsSpace(s[0]) {
      TrimLeftUnspaced(s[1..]);
    }
  }

  lemma {:induction false} TrimRightUnspaced(s: string)
    ensures TrimRight(s) <= s
    ensures TrimRight(s) == "" || !IsSpace(TrimRight(s)[|TrimRight(s)| - 1])
  {
    if s != "" && IsSpace(s[|s| - 1]) {
      TrimRightUnspaced(s[..|s| - 1]);
    }
  }

  lemma CanonicalOnce(s: string)
    ensures CanonicalTunnel(Lower(TrimSpace(s))) == Lower(TrimSpace(s))
  {
    var t := Lower(TrimSpace(s));
    TrimmedIsUnspaced(s);
    assert t != "" ==> t[0] == LowerChar(TrimSpace(s)[0]) && t[|t| - 1] == LowerChar(TrimSpace(s)[|t| - 1]);
    TrimUnspaced(t);
    LowerIdempotent(TrimSpace(s));
  }

  lemma TunnelsCanonical(v: Option<Json>)
    requires IsStringList(v)
    ensures forall t :: t in Distincts(Lowered(Strings(v))) ==> CanonicalTunnel(t) == t
    ensures Distinct(Distincts(Lowered(Strings(v))))
  {
    var all := Lowered(Strings(v));
    DistinctsSameElements(all);
    forall i | 0 <= i < |all|
      ensures CanonicalTunnel(all[i]) == all[i]
    {
      CanonicalOnce(v.value.items[i].s);
    }
  }

  lemma SuffixesCanonical(v: Option<Json>)
    requires IsSuffixList(v)
    ensures forall s :: s in Distincts(Normalized(Strings(v))) ==> CanonicalSuffix(s)
  {
    var all := Normalized(Strings(v));
    DistinctsSameElements(all);
    forall i | 0 <= i < |all|
      ensures CanonicalSuffix(all[i])
    {
      NormalForm(Strings(v)[i]);
    }
  }

  lemma ClientIsCanonical(entry: seq<Field>)
    requires IsClient(entry)
    ensures Canonical(ClientOf(entry))
  {
    TunnelsCanonical(FieldOf(entry, "tunnels"));
    SuffixesCanonical(FieldOf(entry, "suffixes"));
  }

  /** An accepted policy divides the tunnels among its clients. */
  lemma AcceptedIsWellDivided(fields: seq<Field>, policy: Clients)
    requires Accepted(fields) && IsPolicy(ReadAll(fields), policy)
    ensures WellDivided(policy) && policy != map[]
  {
    var ns := ReadAll(fields);
    assert ns[0].id in policy;
    forall i | 0 <= i < |ns|
      ensures Canonical(ns[i].client)
    {
      ClientIsCanonical(fields[i].value.fields);
    }
    DividedByIds(ns, policy);
  }

  lemma DividedByIds(ns: seq<Named>, policy: Clients)
    requires IsPolicy(ns, policy) && NoSharedTunnel(ns) && forall i :: 0 <= i < |ns| ==> Canonical(ns[i].client)
    ensures WellDivided(policy)
  {
    forall c, d, t | c in policy && d in policy && c != d && t in policy[c].tunnels
      ensures t !in policy[d].tunnels
    {
      var i :| 0 <= i < |ns| && ns[i].id == c;
      var j :| 0 <= j < |ns| && ns[j].id == d;
    }
  }
}
