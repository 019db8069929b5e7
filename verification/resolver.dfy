/**
 Which tunnel carries a hostname: one tunnel for everything, or the tunnel of the most specific
 configured domain. Draining tunnels are listed but never resolved to.
 */
module Resolver {
  import opened Wrappers
  import opened Text
  import opened Sorting
  import opened Domains

  datatype Entry = Entry(domain: string, tunnel: string)

  /** A resolver's settled state. */
  datatype Resolver = Resolver(entries: seq<Entry>, fallback: string, drain: seq<string>)

  const TARGET_SUFFIX := ".cfargotunnel.com"

  function Target(tunnel: string): string {
    tunnel + TARGET_SUFFIX
  }

  lemma TargetInjective(a: string, b: string)
    requires Target(a) == Target(b)
    ensures a == b
  {
    assert Target(a)[..|a|] == a && Target(b)[..|b|] == b;
  }

  function CanonicalHost(hostname: string): string {
    Lower(if hostname != "" && hostname[|hostname| - 1] == '.' then hostname[..|hostname| - 1] else hostname)
  }

  function FirstMatch(entries: seq<Entry>, h: string): Option<string> {
    if entries == [] then None
    else if Under(h, entries[0].domain) then Some(entries[0].tunnel)
    else FirstMatch(entries[1..], h)
  }

  function Resolve(r: Resolver, hostname: string): Option<string> {
    if r.fallback != "" then Some(r.fallback) else FirstMatch(r.entries, CanonicalHost(hostname))
  }

  function EntryTunnels(entries: seq<Entry>): (ts: seq<string>)
    ensures |ts| == |entries|
    ensures forall i :: 0 <= i < |ts| ==> ts[i] == entries[i].tunnel
  {
    seq(|entries|, i requires 0 <= i < |entries| => entries[i].tunnel)
  }

  function Configured(r: Resolver): seq<string> {
    if r.fallback != "" then [r.fallback] else Distincts(EntryTunnels(r.entries))
  }

  function Tunnels(r: Resolver): seq<string> {
    Configured(r) + r.drain
  }

  ghost predicate ValidResolver(r: Resolver) {
    && (forall t :: t in r.drain ==> t !in Configured(r))
    && Distinct(r.drain)
  }

  lemma {:induction false} FirstMatchIsAnEntry(entries: seq<Entry>, h: string)
    ensures FirstMatch(entries, h).Some? ==> FirstMatch(entries, h).value in EntryTunnels(entries)
  {
    if entries != [] && !Under(h, entries[0].domain) {
      FirstMatchIsAnEntry(entries[1..], h);
      if FirstMatch(entries[1..], h).Some? {
        var i :| 0 <= i < |entries| - 1 && EntryTunnels(entries[1..])[i] == FirstMatch(entries[1..], h).value;
        assert EntryTunnels(entries)[i + 1] == entries[1..][i].tunnel;
      }
    } else if entries != [] {
      assert EntryTunnels(entries)[0] == entries[0].tunnel;
    }
  }

  /** A hostname resolves only to a configured tunnel, which is listed and never draining. */
  lemma ResolvesToConfigured(r: Resolver, hostname: string)
    requires ValidResolver(r)
    requires Resolve(r, hostname).Some?
    ensures Resolve(r, hostname).value in Configured(r)
    ensures Resolve(r, hostname).value in Tunnels(r)
    ensures Resolve(r, hostname).value !in r.drain
  {
    if r.fallback == "" {
      FirstMatchIsAnEntry(r.entries, CanonicalHost(hostname));
      DistinctsSameElements(EntryTunnels(r.entries));
    }
  }

  /** No tunnel is listed twice, so no route is counted twice. */
  lemma TunnelsDistinct(r: Resolver)
    requires ValidResolver(r)
    ensures Distinct(Tunnels(r))
  {
    DistinctsSameElements(EntryTunnels(r.entries));
    var c := Configured(r);
    forall i, j | 0 <= i < j < |Tunnels(r)|
      ensures Tunnels(r)[i] != Tunnels(r)[j]
    {
      if j < |c| {
      } else if i < |c| {
        assert r.drain[j - |c|] in r.drain && c[i] in c;
      } else {
        assert Tunnels(r)[j] == r.drain[j - |c|] && Tunnels(r)[i] == r.drain[i - |c|];
      }
    }
  }

  /** Resolution does not depend on letter case. */
  lemma ResolveIgnoresCase(r: Resolver, hostname: string)
    ensures Resolve(r, Lower(hostname)) == Resolve(r, hostname)
  {
    assert CanonicalHost(Lower(hostname)) == CanonicalHost(hostname);
  }

  // Longest domain first; equal lengths in byte order.

  predicate EntryLeq(a: Entry, b: Entry) {
    |a.domain| > |b.domain| || (|a.domain| == |b.domain| && StringLeq(a.domain, b.domain))
  }

  lemma EntryOrder()
    ensures TotalPreorder(EntryLeq)
    ensures forall a, b :: EntryLeq(a, b) && EntryLeq(b, a) ==> a.domain == b.domain
  {
    StringOrder();
    forall a, b
      ensures EntryLeq(a, b) || EntryLeq(b, a)
      ensures EntryLeq(a, b) && EntryLeq(b, a) ==> a.domain == b.domain
    {
      StringLeqTotal(a.domain, b.domain);
      if EntryLeq(a, b) && EntryLeq(b, a) {
        StringLeqAntisymmetric(a.domain, b.domain);
      }
    }
    forall a, b, c | EntryLeq(a, b) && EntryLeq(b, c)
      ensures EntryLeq(a, c)
    {
      if StringLeq(a.domain, b.domain) && StringLeq(b.domain, c.domain) {
        StringLeqTransitive(a.domain, b.domain, c.domain);
      }
    }
  }

  function CanonicalDomain(domain: string): string {
    var d := Lower(domain);
    TrimSpace(if d != "" && d[0] == '.' then d[1..] else d)
  }

  predicate UsablePair(domain: string, tunnel: string) {
    CanonicalDomain(domain) != "" && TrimSpace(tunnel) != ""
  }

  function EntryFor(m: map<string, string>, domain: string): Entry
    requires domain in m
  {
    Entry(CanonicalDomain(domain), TrimSpace(m[domain]))
  }

  ghost predicate DistinctDomains(m: map<string, string>) {
    forall d, e :: d in m && e in m && CanonicalDomain(d) == CanonicalDomain(e) ==> d == e
  }

  /** The entries are exactly the map's pairs, in the order the sort leaves them. */
  ghost predicate BuiltFrom(entries: seq<Entry>, m: map<string, string>) {
    && SortedBy(EntryLeq, entries)
    && (forall e :: e in entries <==> exists d :: d in m && e == EntryFor(m, d))
  }

  /** A hostname and its text: one dot at the end, if any, does not belong to it. */
  ghost predicate HostText(hostname: string, host: string) {
    hostname == host + "." || (hostname == host && !HasSuffix(host, "."))
  }

  /** A configured domain and its text: one dot in front, if any, does not belong to it. */
  ghost predicate DomainText(domain: string, rest: string) {
    domain == "." + rest || (domain == rest && !("." <= rest))
  }

  /** These are a configured domain's labels, and they end the host's. */
  ghost predicate Covers(host: seq<string>, domain: string, labels: seq<string>) {
    LabelSuffix(host, labels) && exists rest :: DomainText(domain, rest) && labels == Labels(TrimSpace(Lower(rest)))
  }

  /** No configured domain covers the host with more labels: no order of iteration in it. */
  ghost predicate MostSpecific(m: map<string, string>, host: seq<string>, domain: string, labels: seq<string>) {
    && domain in m && Covers(host, domain, labels)
    && (forall d, ls :: d in m && Covers(host, d, ls) ==> |ls| <= |labels|)
  }

  lemma CanonicalHostText(hostname: string, host: string)
    requires HostText(hostname, host)
    ensures CanonicalHost(hostname) == Lower(host)
  {
    if hostname == host + "." {
      assert hostname[..|hostname| - 1] == host;
    }
  }

  lemma HasHostText(hostname: string)
    ensures exists host :: HostText(hostname, host)
  {
    if HasSuffix(hostname, ".") {
      assert hostname == hostname[..|hostname| - 1] + ".";
      assert HostText(hostname, hostname[..|hostname| - 1]);
    } else {
      assert HostText(hostname, hostname);
    }
  }

  lemma CanonicalDomainText(domain: string, rest: string)
    requires DomainText(domain, rest)
    ensures CanonicalDomain(domain) == TrimSpace(Lower(rest))
  {
    if domain == "." + rest {
      LowerConcat(".", rest);
      assert Lower(domain)[1..] == Lower(rest) && Lower(domain)[0] == '.';
    } else if rest != "" {
      assert Lower(rest)[0] == LowerChar(rest[0]) != '.';
    }
  }

  lemma HasDomainText(domain: string)
    ensures exists rest :: DomainText(domain, rest)
  {
    if "." <= domain {
      assert domain == "." + domain[1..];
      assert DomainText(domain, domain[1..]);
    } else {
      assert DomainText(domain, domain);
    }
  }

  /** A domain with a name in it, and a tunnel that is not blank. */
  ghost predicate WellConfigured(domain: string, tunnel: string) {
    TrimSpace(tunnel) != "" && exists rest :: DomainText(domain, rest) && TrimSpace(Lower(rest)) != ""
  }

  lemma UsableExact(domain: string, tunnel: string)
    ensures UsablePair(domain, tunnel) <==> WellConfigured(domain, tunnel)
  {
    HasDomainText(domain);
    forall rest | DomainText(domain, rest)
      ensures CanonicalDomain(domain) == TrimSpace(Lower(rest))
    {
      CanonicalDomainText(domain, rest);
    }
  }

  lemma CoversByName(host: string, domain: string, labels: seq<string>)
    ensures Covers(Labels(host), domain, labels) <==>
      labels == Labels(CanonicalDomain(domain)) && Under(host, CanonicalDomain(domain))
  {
    HasDomainText(domain);
    forall rest | DomainText(domain, rest)
      ensures CanonicalDomain(domain) == TrimSpace(Lower(rest))
    {
      CanonicalDomainText(domain, rest);
    }
    UnderIsLabelSuffix(host, CanonicalDomain(domain));
  }

  lemma SuffixOfSuffix(host: seq<string>, a: seq<string>, b: seq<string>)
    requires LabelSuffix(host, a) && LabelSuffix(host, b) && |a| <= |b|
    ensures LabelSuffix(b, a)
  {
    assert b[|b| - |a|..] == host[|host| - |a|..];
  }

  /** Of two domains over one host, the one with no more labels is over no longer a name. */
  lemma FewerLabels(host: string, a: string, b: string)
    requires Under(host, a) && Under(host, b) && |Labels(a)| <= |Labels(b)|
    ensures Under(b, a)
  {
    UnderIsLabelSuffix(host, a);
    UnderIsLabelSuffix(host, b);
    SuffixOfSuffix(Labels(host), Labels(a), Labels(b));
    UnderIsLabelSuffix(b, a);
  }

  /** Of two domains over one host, the one with more labels is the longer. */
  lemma MoreLabelsLonger(host: string, a: string, b: string)
    requires Under(host, a) && Under(host, b)
    ensures |a| <= |b| <==> |Labels(a)| <= |Labels(b)|
  {
    if |Labels(a)| <= |Labels(b)| {
      FewerLabels(host, a, b);
    } else {
      FewerLabels(host, b, a);
      assert a != b;
    }
  }

  lemma {:induction false} FirstMatchIsLongest(entries: seq<Entry>, h: string)
    requires SortedBy(EntryLeq, entries)
    ensures FirstMatch(entries, h).None? <==> forall e :: e in entries ==> !Under(h, e.domain)
    ensures FirstMatch(entries, h).Some? ==>
      exists e :: e in entries && Under(h, e.domain) && e.tunnel == FirstMatch(entries, h).value &&
        forall o :: o in entries && Under(h, o.domain) ==> |o.domain| <= |e.domain|
  {
    if entries != [] {
      assert entries == [entries[0]] + entries[1..];
      if Under(h, entries[0].domain) {
        forall o | o in entries && Under(h, o.domain)
          ensures |o.domain| <= |entries[0].domain|
        {
          var i :| 0 <= i < |entries| && entries[i] == o;
          assert i > 0 ==> EntryLeq(entries[0], entries[i]);
        }
      } else {
        FirstMatchIsLongest(entries[1..], h);
      }
    }
  }

  /** The longest domain over a host, by its text, is the one that covers it with most labels. */
  lemma LongestIsMostSpecific(m: map<string, string>, entries: seq<Entry>, h: string, d: string)
    requires BuiltFrom(entries, m) && d in m && Under(h, CanonicalDomain(d))
    ensures MostSpecific(m, Labels(h), d, Labels(CanonicalDomain(d))) <==>
      forall o :: o in entries && Under(h, o.domain) ==> |o.domain| <= |CanonicalDomain(d)|
  {
    CoversByName(h, d, Labels(CanonicalDomain(d)));
    forall e, ls | e in m && Covers(Labels(h), e, ls)
      ensures EntryFor(m, e) in entries && Under(h, CanonicalDomain(e))
      ensures |CanonicalDomain(e)| <= |CanonicalDomain(d)| <==> |ls| <= |Labels(CanonicalDomain(d))|
    {
      CoversByName(h, e, ls);
      MoreLabelsLonger(h, CanonicalDomain(e), CanonicalDomain(d));
    }
    forall o | o in entries && Under(h, o.domain)
      ensures exists e :: e in m && o == EntryFor(m, e) && Covers(Labels(h), e, Labels(o.domain))
    {
      var e :| e in m && o == EntryFor(m, e);
      CoversByName(h, e, Labels(o.domain));
    }
  }

  /** The tunnel of a domain that covers the host with most labels. */
  ghost predicate Carries(m: map<string, string>, host: seq<string>, tunnel: string) {
    exists d, labels :: MostSpecific(m, host, d, labels) && tunnel == TrimSpace(m[d])
  }

  lemma FirstMatchCarries(m: map<string, string>, entries: seq<Entry>, h: string, tunnel: string)
    requires DistinctDomains(m) && BuiltFrom(entries, m)
    ensures FirstMatch(entries, h) == Some(tunnel) <==> Carries(m, Labels(h), tunnel)
  {
    FirstMatchIsLongest(entries, h);
    if FirstMatch(entries, h).Some? {
      var e :| e in entries && Under(h, e.domain) && e.tunnel == FirstMatch(entries, h).value &&
        forall o :: o in entries && Under(h, o.domain) ==> |o.domain| <= |e.domain|;
      var d :| d in m && e == EntryFor(m, d);
      LongestIsMostSpecific(m, entries, h, d);
      MostSpecificUnique(m, h, d);
    } else {
      forall d, labels
        ensures !MostSpecific(m, Labels(h), d, labels)
      {
        CoversByName(h, d, labels);
        assert d in m ==> EntryFor(m, d) in entries;
      }
    }
  }

  /**
   One tunnel carries everything, or the host's lower-case labels decide: the tunnel of the configured domain
   that ends them with most labels, whatever order the map was read in.
   */
  lemma ResolveMostSpecific(m: map<string, string>, r: Resolver, hostname: string, tunnel: string)
    requires r.fallback == "" ==> DistinctDomains(m) && BuiltFrom(r.entries, m)
    ensures r.fallback != "" ==> Resolve(r, hostname) == Some(r.fallback)
    ensures exists host :: HostText(hostname, host)
    ensures forall host :: HostText(hostname, host) && r.fallback == "" ==>
      (Resolve(r, hostname) == Some(tunnel) <==> Carries(m, Labels(Lower(host)), tunnel))
  {
    HasHostText(hostname);
    forall host | HostText(hostname, host) && r.fallback == ""
      ensures Resolve(r, hostname) == Some(tunnel) <==> Carries(m, Labels(Lower(host)), tunnel)
    {
      CanonicalHostText(hostname, host);
      FirstMatchCarries(m, r.entries, Lower(host), tunnel);
    }
  }

  lemma MostSpecificUnique(m: map<string, string>, h: string, d: string)
    requires DistinctDomains(m) && MostSpecific(m, Labels(h), d, Labels(CanonicalDomain(d)))
    ensures forall c, labels :: MostSpecific(m, Labels(h), c, labels) ==> c == d
  {
    var ds := Labels(CanonicalDomain(d));
    forall c, labels | MostSpecific(m, Labels(h), c, labels)
      ensures c == d
    {
      assert |labels| == |ds|;
      CoversByName(h, c, labels);
      CoversByName(h, d, ds);
      MoreLabelsLonger(h, CanonicalDomain(c), CanonicalDomain(d));
      MoreLabelsLonger(h, CanonicalDomain(d), CanonicalDomain(c));
      UnderSameLength(h, CanonicalDomain(c), CanonicalDomain(d));
    }
  }

  datatype ConfigError = EmptyMap | EmptyDomain | EmptyTunnel | BothConfiguredAndDraining

  /** The ids of a drain list that are not blank, trimmed, as they come. */
  function NonBlank(ids: seq<string>): seq<string> {
    if ids == [] then []
    else NonBlank(ids[..|ids| - 1]) + if TrimSpace(ids[|ids| - 1]) == "" then [] else [TrimSpace(ids[|ids| - 1])]
  }

  lemma {:induction false} NonBlankAre(ids: seq<string>)
    ensures forall t :: t in NonBlank(ids) <==> t != "" && exists id :: id in ids && TrimSpace(id) == t
  {
    if ids != [] {
      assert ids == ids[..|ids| - 1] + [ids[|ids| - 1]];
      NonBlankAre(ids[..|ids| - 1]);
    }
  }

  /** What the next id adds, and that it is one of them all. */
  lemma NonBlankNext(ids: seq<string>, i: nat)
    requires i < |ids|
    ensures TrimSpace(ids[i]) == "" ==> NonBlank(ids[..i + 1]) == NonBlank(ids[..i])
    ensures TrimSpace(ids[i]) != "" ==> NonBlank(ids[..i + 1]) == NonBlank(ids[..i]) + [TrimSpace(ids[i])]
    ensures TrimSpace(ids[i]) != "" ==> TrimSpace(ids[i]) in NonBlank(ids)
  {
    assert ids[..i + 1][..i] == ids[..i];
    NonBlankAre(ids);
    assert ids[i] in ids;
  }

  lemma DrainNext(ids: seq<string>, i: nat, wanted: seq<string>)
    requires i < |ids| && wanted == Distincts(NonBlank(ids[..i]))
    ensures var id := TrimSpace(ids[i]);
      Distincts(NonBlank(ids[..i + 1])) == if id == "" || id in wanted then wanted else wanted + [id]
  {
    NonBlankNext(ids, i);
    if TrimSpace(ids[i]) != "" {
      DistinctsNext(NonBlank(ids[..i]), TrimSpace(ids[i]));
    }
  }

  lemma DistinctsNext<T>(xs: seq<T>, x: T)
    ensures Distincts(xs + [x]) == if x in Distincts(xs) then Distincts(xs) else Distincts(xs) + [x]
  {
    assert (xs + [x])[..|xs|] == xs;
  }

  class TunnelResolver {
    var entries: seq<Entry>
    var fallback: string
    var drain: seq<string>

    function View(): Resolver
      reads this
    {
      Resolver(entries, fallback, drain)
    }

    constructor (entries: seq<Entry>, fallback: string)
      ensures View() == Resolver(entries, fallback, [])
    {
      this.entries, this.fallback, this.drain := entries, fallback, [];
    }

    /** The distinct tunnels a hostname can resolve to. */
    method ConfiguredTunnels() returns (out: seq<string>)
      ensures out == Configured(View())
    {
      if fallback != "" {
        return [fallback];
      }
      var seen := {};
      out := [];
      var all := EntryTunnels(entries);
      for i := 0 to |entries|
        invariant out == Distincts(all[..i])
        invariant forall t :: t in seen <==> t in out
      {
        assert all[..i + 1][..i] == all[..i];
        if entries[i].tunnel !in seen {
          seen, out := seen + {entries[i].tunnel}, out + [entries[i].tunnel];
        }
      }
      assert all[..|all|] == all;
    }

    /** Blank and repeated ids are ignored; a tunnel that is also configured is refused. */
    method SetDrain(ids: seq<string>) returns (r: Result<(), ConfigError>)
      modifies this`drain
      ensures r.Failure? <==> exists t :: t in NonBlank(ids) && t in Configured(old(View()))
      ensures r.Failure? ==> r.error.BothConfiguredAndDraining? && drain == old(drain)
      ensures r.Success? ==> ValidResolver(View())
      ensures r.Success? ==> drain == Distincts(NonBlank(ids))
    {
      var configured := ConfiguredTunnels();
      var wanted: seq<string> := [];
      for i := 0 to |ids|
        invariant drain == old(drain)
        invariant wanted == Distincts(NonBlank(ids[..i]))
        invariant forall t :: t in wanted ==> t !in configured
      {
        var id := TrimSpace(ids[i]);
        DrainNext(ids, i, wanted);
        if id != "" {
          if id in configured {
            NonBlankNext(ids, i);
            assert id in NonBlank(ids) && id in Configured(View());
            return Failure(BothConfiguredAndDraining);
          }
          if id !in wanted {
            wanted := wanted + [id];
          }
        }
      }
      assert ids[..|ids|] == ids;
      DistinctsSameElements(NonBlank(ids));
      drain := wanted;
      return Success(());
    }
  }

  /** The map's entries, in whatever order it yields them. */
  method EntriesOf(m: map<string, string>) returns (r: Result<seq<Entry>, ConfigError>)
    ensures r.Success? <==> forall d :: d in m ==> UsablePair(d, m[d])
    ensures r.Success? ==> forall e :: e in r.value <==> exists d :: d in m && e == EntryFor(m, d)
  {
    var entries: seq<Entry> := [];
    var left := m.Keys;
    while left != {}
      invariant left <= m.Keys
      invariant forall d :: d in m && d !in left ==> UsablePair(d, m[d])
      invariant forall e :: e in entries <==> exists d :: d in m && d !in left && e == EntryFor(m, d)
    {
      var d :| d in left;
      if CanonicalDomain(d) == "" {
        return Failure(EmptyDomain);
      }
      if TrimSpace(m[d]) == "" {
        return Failure(EmptyTunnel);
      }
      entries, left := entries + [EntryFor(m, d)], left - {d};
    }
    return Success(entries);
  }

  lemma SortedIsBuilt(entries: seq<Entry>, sorted: seq<Entry>, m: map<string, string>)
    requires SortedBy(EntryLeq, sorted) && multiset(sorted) == multiset(entries)
    requires forall e :: e in entries <==> exists d :: d in m && e == EntryFor(m, d)
    requires forall d :: d in m ==> UsablePair(d, m[d])
    ensures BuiltFrom(sorted, m) && forall i :: 0 <= i < |sorted| ==> sorted[i].tunnel != ""
  {
    forall e
      ensures e in sorted <==> e in entries
    {
      assert e in sorted <==> e in multiset(sorted);
      assert e in entries <==> e in multiset(entries);
    }
    forall i | 0 <= i < |sorted|
      ensures sorted[i].tunnel != ""
    {
      assert sorted[i] in entries;
    }
  }

  lemma UsableMap(m: map<string, string>)
    ensures (forall d :: d in m ==> UsablePair(d, m[d])) <==> forall d :: d in m ==> WellConfigured(d, m[d])
  {
    forall d | d in m
      ensures UsablePair(d, m[d]) <==> WellConfigured(d, m[d])
    {
      UsableExact(d, m[d]);
    }
  }

  /** Map entries arrive in any order; sorting makes the result independent of it. */
  method NewMapTunnelResolver(m: map<string, string>) returns (r: Result<TunnelResolver, ConfigError>)
    ensures r.Success? <==> m != map[] && forall d :: d in m ==> WellConfigured(d, m[d])
    ensures r.Success? ==> fresh(r.value) && r.value.fallback == "" && r.value.drain == []
    ensures r.Success? ==> BuiltFrom(r.value.entries, m) && "" !in Configured(r.value.View())
  {
    if m == map[] {
      return Failure(EmptyMap);
    }
    UsableMap(m);
    var entries := EntriesOf(m);
    if entries.Failure? {
      return Failure(entries.error);
    }
    EntryOrder();
    var sorted := Sort(EntryLeq, entries.value);
    SortedIsBuilt(entries.value, sorted, m);
    var resolver := new TunnelResolver(sorted, "");
    DistinctsSameElements(EntryTunnels(sorted));
    return Success(resolver);
  }
}
