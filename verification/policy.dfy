/**
 The broker's policy: which tunnels and hostnames each client may touch, and how it is read. A policy
 that is accepted gives every tunnel to one client only.
 */
module Policy {
  import opened Wrappers
  import opened Text
  import opened Sorting
  import opened Domains
  import opened Routes

  datatype ClientPolicy = ClientPolicy(owner: Option<string>, tunnels: seq<string>, suffixes: seq<string>)

  /** A field of a request body, as far as it matters here. */
  datatype Value = Undefined | Null | NotAString | Str(s: string)

  // Hostnames.

  function DropTrailingDots(h: string): (r: string)
    ensures r == "" || r[|r| - 1] != '.'
  {
    if h != "" && h[|h| - 1] == '.' then DropTrailingDots(h[..|h| - 1]) else h
  }

  function DropLeadingDots(h: string): string {
    if h != "" && h[0] == '.' then DropLeadingDots(h[1..]) else h
  }

  function DropWildcard(h: string): string {
    if "*." <= h then h[2..] else h
  }

  /** Trimmed, lower-cased, without trailing dots. */
  function Trailed(hostname: string): string {
    DropTrailingDots(Lower(TrimSpace(hostname)))
  }

  function NormalizeHostname(hostname: string): string {
    DropLeadingDots(DropWildcard(Trailed(hostname)))
  }

  method Normalize(hostname: string) returns (h: string)
    ensures h == NormalizeHostname(hostname)
  {
    h := Lower(TrimSpace(hostname));
    ghost var whole := h;
    while h != "" && h[|h| - 1] == '.'
      invariant DropTrailingDots(h) == DropTrailingDots(whole)
      decreases |h|
    {
      h := h[..|h| - 1];
    }
    if "*." <= h {
      h := h[2..];
    }
    whole := h;
    while h != "" && h[0] == '.'
      invariant DropLeadingDots(h) == DropLeadingDots(whole)
      decreases |h|
    {
      h := h[1..];
    }
  }

  lemma LowerPart(s: string, i: nat, j: nat)
    requires IsLower(s) && i <= j <= |s|
    ensures IsLower(s[i..j])
  {
    assert forall k :: i <= k < j ==> Lower(s)[k] == s[k];
  }

  /** Where the name begins, once its wildcard label is dropped. */
  function PastWildcard(c: string): nat {
    if "*." <= c then 2 else 0
  }

  /** How many dots a string begins with. */
  function LeadingDots(b: string): (k: nat)
    ensures k <= |b| && (k < |b| ==> b[k] != '.')
    ensures forall i :: 0 <= i < k ==> b[i] == '.'
  {
    if b != "" && b[0] == '.' then 1 + LeadingDots(b[1..]) else 0
  }

  lemma {:induction false} LeadingDotsDropped(b: string)
    ensures DropLeadingDots(b) == b[LeadingDots(b)..]
  {
    if b != "" && b[0] == '.' {
      LeadingDotsDropped(b[1..]);
      assert b[1..][LeadingDots(b[1..])..] == b[LeadingDots(b)..];
    }
  }

  /** Where the name that is left begins: behind the wildcard label and the dots that follow. */
  function NameAt(c: string): (k: nat)
    ensures PastWildcard(c) <= k <= |c| && (k < |c| ==> c[k] != '.')
    ensures forall i :: PastWildcard(c) <= i < k ==> c[i] == '.'
  {
    var p := PastWildcard(c);
    var k := LeadingDots(c[p..]);
    assert forall i :: p <= i < p + k ==> c[i] == c[p..][i - p];
    p + k
  }

  lemma NameStarts(c: string)
    ensures DropLeadingDots(DropWildcard(c)) == c[NameAt(c)..]
  {
    var p := PastWildcard(c);
    assert DropWildcard(c) == c[p..];
    LeadingDotsDropped(c[p..]);
    assert c[p..][LeadingDots(c[p..])..] == c[NameAt(c)..];
  }

  lemma {:induction false} TrailingDotsDropped(h: string)
    ensures var r := DropTrailingDots(h); |r| <= |h| && r == h[..|r|]
  {
    if h != "" && h[|h| - 1] == '.' {
      TrailingDotsDropped(h[..|h| - 1]);
    }
  }

  /** A tail keeps the letters it has, and its last one. */
  lemma TailKeeps(c: string, k: nat)
    requires k <= |c|
    ensures IsLower(c) ==> IsLower(c[k..])
    ensures k < |c| ==> c[k..][|c| - k - 1] == c[|c| - 1] && c[k..][0] == c[k]
  {
    if IsLower(c) {
      LowerPart(c, k, |c|);
      assert c[k..|c|] == c[k..];
    }
  }

  lemma TrailedIsLower(hostname: string)
    ensures IsLower(Trailed(hostname))
  {
    var low := Lower(TrimSpace(hostname));
    LowerIdempotent(TrimSpace(hostname));
    TrailingDotsDropped(low);
    LowerPart(low, 0, |DropTrailingDots(low)|);
  }

  lemma NormalEnds(c: string, n: string)
    requires IsLower(c) && (c == "" || c[|c| - 1] != '.') && n == c[NameAt(c)..]
    ensures IsLower(n) && (n == "" || (n[0] != '.' && n[|n| - 1] != '.'))
  {
    TailKeeps(c, NameAt(c));
  }

  /** The canonical form is lower case and neither begins nor ends in a dot. */
  lemma NormalForm(hostname: string)
    ensures var h := NormalizeHostname(hostname);
      IsLower(h) && (h == "" || (h[0] != '.' && h[|h| - 1] != '.'))
  {
    TrailedIsLower(hostname);
    NameStarts(Trailed(hostname));
    NormalEnds(Trailed(hostname), NormalizeHostname(hostname));
  }

  predicate DotsFrom(low: string, i: nat, j: nat)
    requires j <= |low|
  {
    forall k :: i <= k < j ==> low[k] == '.'
  }

  /**
   The name h stands in low between from and to: behind it only dots, in front of it one wildcard label, if
   there is one, and only dots; and it neither begins nor ends in one.
   */
  ghost predicate NameIn(low: string, from: nat, to: nat, h: string) {
    && from <= to <= |low| && h == low[from..to]
    && DotsFrom(low, to, |low|) && (to > 0 ==> low[to - 1] != '.')
    && PastWildcard(low[..to]) <= from && DotsFrom(low, PastWildcard(low[..to]), from)
    && (from < to ==> low[from] != '.')
  }

  lemma {:induction false} DroppedAreDots(h: string)
    ensures var r := DropTrailingDots(h); |r| <= |h| && r == h[..|r|] && DotsFrom(h, |r|, |h|)
  {
    if h != "" && h[|h| - 1] == '.' {
      DroppedAreDots(h[..|h| - 1]);
    }
  }

  lemma NameStands(low: string, to: nat, c: string)
    requires to <= |low| && c == low[..to] && DotsFrom(low, to, |low|) && (c == "" || c[to - 1] != '.')
    ensures NameIn(low, NameAt(c), to, c[NameAt(c)..])
  {
    assert c[NameAt(c)..] == low[NameAt(c)..to];
  }

  lemma NormalStands(hostname: string)
    ensures exists from, to :: NameIn(Lower(TrimSpace(hostname)), from, to, NormalizeHostname(hostname))
  {
    var low, c := Lower(TrimSpace(hostname)), Trailed(hostname);
    DroppedAreDots(low);
    NameStarts(c);
    NameStands(low, |c|, c);
    assert NameIn(low, NameAt(c), |c|, NormalizeHostname(hostname));
  }

  lemma NameInOnce(low: string, a: nat, b: nat, h: string, c: nat, d: nat, k: string)
    requires NameIn(low, a, b, h) && NameIn(low, c, d, k)
    ensures h == k
  {
    assert b == d;
  }

  /** Normalizing finds exactly the name so framed, once the hostname is trimmed and in lower case. */
  lemma NormalizeExact(hostname: string, h: string)
    ensures NormalizeHostname(hostname) == h <==> exists from, to :: NameIn(Lower(TrimSpace(hostname)), from, to, h)
  {
    var low := Lower(TrimSpace(hostname));
    NormalStands(hostname);
    var a, b :| NameIn(low, a, b, NormalizeHostname(hostname));
    forall from, to | NameIn(low, from, to, h)
      ensures NormalizeHostname(hostname) == h
    {
      NameInOnce(low, a, b, NormalizeHostname(hostname), from, to, h);
    }
  }

  /** A name without spaces, wildcard or dots at its ends is only lower-cased. */
  lemma OnlyLowered(whole: string)
    requires whole != "" && Unspaced(whole) && whole[|whole| - 1] != '.' && whole[0] != '.' && whole[0] != '*'
    ensures NormalizeHostname(whole) == Lower(whole)
  {
    TrimUnspaced(whole);
    var low := Lower(whole);
    LowerPlain(whole[0]);
    LowerPlain(whole[|whole| - 1]);
    assert DropTrailingDots(low) == low;
    assert DropWildcard(low) == low;
  }

  /** Lower-casing makes no dot and no star. */
  lemma LowerPlain(c: char)
    ensures LowerChar(c) == '*' <==> c == '*'
    ensures LowerChar(c) == '.' <==> c == '.'
  {
  }

  lemma TrimUnspaced(s: string)
    ensures TrimSpace(s) == s <==> Unspaced(s)
  {
    if s != "" && IsSpace(s[0]) {
      TrimLeftShrinks(s[1..]);
      TrimRightShrinks(TrimLeft(s));
    } else if s != "" && IsSpace(s[|s| - 1]) {
      TrimRightShrinks(s[..|s| - 1]);
    }
  }

  /** At k, behind the wildcard label and nothing but dots, stands a space or another wildcard label. */
  predicate CutNextTime(c: string, k: nat) {
    && PastWildcard(c) <= k < |c| && (forall i :: PastWildcard(c) <= i < k ==> c[i] == '.')
    && CutAt(c, k)
  }

  /** What only a second pass would cut. */
  predicate CutAt(c: string, k: nat)
    requires k < |c|
  {
    IsSpace(c[k]) || (c[k] == '*' && k + 1 < |c| && c[k + 1] == '.')
  }

  /**
   Read off the hostname: behind its wildcard label and the dots that follow there is neither another
   wildcard label nor a space, and none in front of its trailing dots.
   */
  ghost predicate Settles(hostname: string) {
    SettlesAt(Trailed(hostname))
  }

  ghost predicate SettlesAt(c: string) {
    && (forall k: nat :: !CutNextTime(c, k))
    && (c != "" ==> !IsSpace(c[|c| - 1]))
  }

  /** Only there can a second pass cut. */
  lemma OnlyAtName(c: string)
    ensures (exists k: nat :: CutNextTime(c, k)) <==> NameAt(c) < |c| && CutAt(c, NameAt(c))
  {
    if NameAt(c) < |c| && CutAt(c, NameAt(c)) {
      assert CutNextTime(c, NameAt(c));
    }
    forall k: nat | CutNextTime(c, k)
      ensures k == NameAt(c)
    {
      assert c[k] != '.';
    }
  }

  /** A tail of c and the place where it begins. */
  lemma TailEnds(c: string, k: nat)
    requires k <= |c| && (k < |c| ==> c[k] != '.')
    ensures var n := c[k..];
      && ("*." <= n <==> k < |c| && c[k] == '*' && k + 1 < |c| && c[k + 1] == '.')
      && (n != "" <==> k < |c|) && (n != "" ==> n[0] == c[k] && n[|n| - 1] == c[|c| - 1])
  {
  }

  /** The name that is left is not empty unless only dots were. */
  lemma LastIsName(c: string)
    requires c != "" && c[|c| - 1] != '.'
    ensures NameAt(c) < |c|
  {
    assert NameAt(c) == |c| ==> PastWildcard(c) == |c|;
  }

  lemma SettlesByName(c: string)
    requires c != "" ==> c[|c| - 1] != '.'
    ensures var k := NameAt(c);
      SettlesAt(c) <==> (k < |c| ==> !CutAt(c, k) && !IsSpace(c[|c| - 1]))
  {
    OnlyAtName(c);
    if c != "" {
      LastIsName(c);
    }
  }

  /** What is left settles exactly when its ends do. */
  lemma EndsSettleAt(c: string, n: string)
    requires (c != "" ==> c[|c| - 1] != '.') && n == c[NameAt(c)..]
    ensures SettlesAt(c) <==> !("*." <= n) && Unspaced(n)
  {
    SettlesByName(c);
    TailEnds(c, NameAt(c));
  }

  lemma EndsSettle(hostname: string)
    ensures var n := NormalizeHostname(hostname); Settles(hostname) <==> !("*." <= n) && Unspaced(n)
  {
    NameStarts(Trailed(hostname));
    EndsSettleAt(Trailed(hostname), NormalizeHostname(hostname));
  }

  /** A pass makes no name longer. */
  lemma PassShrinks(hostname: string)
    ensures |NormalizeHostname(hostname)| <= |Trailed(hostname)| <= |TrimSpace(hostname)|
  {
    NameStarts(Trailed(hostname));
    TrailingDotsDropped(Lower(TrimSpace(hostname)));
  }

  lemma TrailedAgain(n: string)
    requires IsLower(n) && Unspaced(n) && (n == "" || n[|n| - 1] != '.')
    ensures Trailed(n) == n
  {
    TrimUnspaced(n);
  }

  lemma FrontAgain(n: string)
    requires n == "" || n[0] != '.'
    ensures DropLeadingDots(DropWildcard(n)) == n <==> !("*." <= n)
  {
    NameStarts(n);
  }

  lemma PassAgain(n: string)
    requires IsLower(n) && (n == "" || (n[0] != '.' && n[|n| - 1] != '.'))
    ensures NormalizeHostname(n) == n <==> !("*." <= n) && Unspaced(n)
  {
    if Unspaced(n) {
      TrailedAgain(n);
      FrontAgain(n);
    } else {
      TrimShorter(n);
      PassShrinks(n);
    }
  }

  /**
   Normalizing again changes nothing exactly when the hostname settles in one pass: only one wildcard
   label is dropped, and spaces beside the dots that are cut stay.
   */
  lemma NormalizeTwice(hostname: string)
    ensures NormalizeHostname(NormalizeHostname(hostname)) == NormalizeHostname(hostname) <==> Settles(hostname)
  {
    NormalForm(hostname);
    EndsSettle(hostname);
    PassAgain(NormalizeHostname(hostname));
  }

  lemma TrimShorter(s: string)
    requires !Unspaced(s)
    ensures |TrimSpace(s)| < |s|
  {
    if IsSpace(s[0]) {
      TrimLeftShrinks(s[1..]);
      TrimRightShrinks(TrimLeft(s));
    } else {
      TrimRightShrinks(s[..|s| - 1]);
    }
  }

  lemma OnePass(s: string, rest: string)
    requires s == "*." + rest && Unspaced(s) && IsLower(s) && rest != "" && rest[0] != '.' && rest[|rest| - 1] != '.'
    ensures NormalizeHostname(s) == rest
  {
    assert TrimSpace(s) == s by { TrimUnspaced(s); }
    assert s[|s| - 1] == rest[|rest| - 1];
    assert DropTrailingDots(s) == s;
    AfterWildcard(rest);
  }

  lemma AfterWildcard(rest: string)
    requires rest != "" && rest[0] != '.'
    ensures DropLeadingDots(DropWildcard("*." + rest)) == rest
  {
    assert ("*." + rest)[2..] == rest;
  }

  lemma FirstPass()
    ensures NormalizeHostname("*.*.a") == "*.a"
  {
    assert "*.*.a" == "*." + "*.a";
    OnePass("*.*.a", "*.a");
  }

  lemma SecondPass()
    ensures NormalizeHostname("*.a") == "a"
  {
    assert "*.a" == "*." + "a";
    OnePass("*.a", "a");
  }

  /** Two passes can differ from one. */
  lemma NormalizeTwiceDiffers()
    ensures exists h :: NormalizeHostname(NormalizeHostname(h)) != NormalizeHostname(h)
  {
    FirstPass();
    SecondPass();
    assert NormalizeHostname(NormalizeHostname("*.*.a")) == "a";
  }

  // What a client may do.

  function CanonicalTunnel(t: string): string {
    Lower(TrimSpace(t))
  }

  predicate TunnelAllowed(client: ClientPolicy, tunnel: Value) {
    tunnel.Str? && CanonicalTunnel(tunnel.s) in client.tunnels
  }

  /** A canonical hostname under one of the client's suffixes. */
  predicate Managed(client: ClientPolicy, h: string) {
    h != "" && '*' !in h && exists i :: 0 <= i < |client.suffixes| && Under(h, client.suffixes[i])
  }

  predicate HostnameAllowed(client: ClientPolicy, hostname: Value) {
    hostname.Str? && Managed(client, NormalizeHostname(hostname.s))
  }

  /** Whole labels decide: one of the suffixes is the tail of the name's labels. */
  lemma ManagedByLabels(client: ClientPolicy, h: string)
    ensures Managed(client, h) <==>
      && h != "" && '*' !in h
      && exists i :: 0 <= i < |client.suffixes| && LabelSuffix(Labels(h), Labels(client.suffixes[i]))
  {
    forall i | 0 <= i < |client.suffixes|
      ensures Under(h, client.suffixes[i]) <==> LabelSuffix(Labels(h), Labels(client.suffixes[i]))
    {
      UnderIsLabelSuffix(h, client.suffixes[i]);
    }
  }

  lemma Subdomain(sub: string, h: string)
    requires sub != "" && h != ""
    ensures var whole := sub + "." + h;
      && |whole| == |sub| + 1 + |h| && whole[0] == sub[0] && whole[|whole| - 1] == h[|h| - 1]
      && whole[|whole| - |h| - 1..] == "." + h
      && forall c :: c in whole <==> c in sub || c == '.' || c in h
  {
    var whole := sub + "." + h;
    forall c
      ensures c in whole <==> c in sub || c == '.' || c in h
    {
      assert c in whole <==> c in sub + "." || c in h;
    }
  }

  lemma LowerNoStar(s: string)
    ensures '*' in Lower(s) ==> '*' in s
  {
    if '*' in Lower(s) {
      var i :| 0 <= i < |s| && Lower(s)[i] == '*';
      LowerPlain(s[i]);
      assert s[i] in s;
    }
  }

  lemma NormalizeSubdomain(sub: string, h: string)
    requires h != "" && IsLower(h) && h[|h| - 1] != '.' && !IsSpace(h[|h| - 1])
    requires IsToken(sub) && '*' !in sub && sub[0] != '.'
    ensures NormalizeHostname(sub + "." + h) == Lower(sub) + "." + h
  {
    Subdomain(sub, h);
    assert sub[0] in sub;
    OnlyLowered(sub + "." + h);
    LowerSubdomain(sub, h);
  }

  lemma LowerQualified(sub: string, h: string)
    requires IsLower(h)
    ensures Lower(sub + "." + h + ".") == Lower(sub) + "." + h + "."
  {
    LowerConcat(sub + "." + h, ".");
    LowerSubdomain(sub, h);
  }

  lemma DotDropped(low: string)
    requires low != "" && low[0] != '.' && low[0] != '*' && low[|low| - 1] != '.'
    ensures DropLeadingDots(DropWildcard(DropTrailingDots(low + "."))) == low
  {
    assert (low + ".")[..|low|] == low;
    assert DropTrailingDots(low + ".") == DropTrailingDots(low) == low;
  }

  /** Fully qualified, with a dot at the end, whatever the name ends in. */
  lemma NormalizeQualified(sub: string, h: string)
    requires h != "" && IsLower(h) && h[|h| - 1] != '.'
    requires IsToken(sub) && '*' !in sub && sub[0] != '.'
    ensures NormalizeHostname(sub + "." + h + ".") == Lower(sub) + "." + h
  {
    Subdomain(sub, h);
    assert sub[0] in sub;
    TrimUnspaced(sub + "." + h + ".");
    LowerQualified(sub, h);
    LowerPlain(sub[0]);
    Subdomain(Lower(sub), h);
    DotDropped(Lower(sub) + "." + h);
  }

  lemma LowerSubdomain(sub: string, h: string)
    requires IsLower(h)
    ensures Lower(sub + "." + h) == Lower(sub) + "." + h
  {
    LowerConcat(sub + ".", h);
    LowerConcat(sub, ".");
    assert Lower(".") == ".";
  }

  lemma SubdomainManaged(client: ClientPolicy, sub: string, h: string)
    requires Managed(client, h) && '*' !in sub && sub != ""
    ensures Managed(client, Lower(sub) + "." + h)
  {
    var i :| 0 <= i < |client.suffixes| && Under(h, client.suffixes[i]);
    var low := Lower(sub) + "." + h;
    LowerNoStar(sub);
    Subdomain(Lower(sub), h);
    UnderTransitive(low, h, client.suffixes[i]);
  }

  /**
   However a name it may manage is spelled, a client may manage every subdomain of it, in any letter
   case: fully qualified always, and without the dot at the end unless the name ends in white space.
   */
  lemma SubdomainsManaged(client: ClientPolicy, sub: string, hostname: string)
    requires HostnameAllowed(client, Str(hostname)) && IsToken(sub) && '*' !in sub && sub[0] != '.'
    ensures var h := NormalizeHostname(hostname);
      && HostnameAllowed(client, Str(sub + "." + h + "."))
      && (!IsSpace(h[|h| - 1]) ==> HostnameAllowed(client, Str(sub + "." + h)))
  {
    var h := NormalizeHostname(hostname);
    NormalForm(hostname);
    SubdomainManaged(client, sub, h);
    NormalizeQualified(sub, h);
    if !IsSpace(h[|h| - 1]) {
      NormalizeSubdomain(sub, h);
    }
  }

  const OWNER_TAG_PREFIX := "managed-by=external-dns" + "/"

  predicate CommentAllowed(client: ClientPolicy, comment: Value, required: bool) {
    match comment
    case Undefined => !(required && client.owner.Some?)
    case Null => !(required && client.owner.Some?)
    case NotAString => false
    case Str(s) => client.owner.None? || TrimSpace(s) == OWNER_TAG_PREFIX + client.owner.value
  }

  /** An owned client may write exactly the comments that name itself, as the provider reads them. */
  lemma AllowedCommentIsOwn(client: ClientPolicy, comment: string, required: bool)
    requires client.owner.Some?
    ensures CommentAllowed(client, Str(comment), required) <==>
      TrimSpace(comment) == "managed-by=external-dns/" + client.owner.value
    ensures CommentAllowed(client, Str(comment), required) ==> RouteOwner(comment) == client.owner
    ensures client.owner.value != "" && RouteOwner(comment) == client.owner ==>
      CommentAllowed(client, Str(comment), required)
  {
    OwnerExact(comment, client.owner.value);
    assert OWNER_TAG_PREFIX == "managed-by=external-dns/";
  }

  /** A hostname is allowed exactly when it stands for a name whose last labels are one of the suffixes. */
  lemma AllowedByLabels(client: ClientPolicy, hostname: string, h: string)
    requires exists from, to :: NameIn(Lower(TrimSpace(hostname)), from, to, h)
    ensures HostnameAllowed(client, Str(hostname)) <==>
      && h != "" && '*' !in h
      && exists i :: 0 <= i < |client.suffixes| && LabelSuffix(Labels(h), Labels(client.suffixes[i]))
  {
    NormalizeExact(hostname, h);
    ManagedByLabels(client, h);
  }
}
