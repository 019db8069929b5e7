/**
 The account stores a wildcard name without its wildcard label. What a client may name it may still
 manage in the form it is stored in, but for suffixes that begin in white space.
 */
module StoredNames {
  import opened Wrappers
  import opened Text
  import opened Domains
  import opened Routes
  import opened Policy
  import opened PolicyParse
  import opened UpstreamApi

  predicate Spaces(s: string) {
    forall i :: 0 <= i < |s| ==> IsSpace(s[i])
  }

  // Trimming and cutting at one end.

  /** How much white space a string begins with. */
  function LeadingSpaces(s: string): (k: nat)
    ensures k <= |s| && (k < |s| ==> !IsSpace(s[k])) && forall i :: 0 <= i < k ==> IsSpace(s[i])
  {
    if s != "" && IsSpace(s[0]) then 1 + LeadingSpaces(s[1..]) else 0
  }

  lemma {:induction false} TrimLeftIs(s: string)
    ensures TrimLeft(s) == s[LeadingSpaces(s)..]
  {
    if s != "" && IsSpace(s[0]) {
      TrimLeftIs(s[1..]);
      assert s[1..][LeadingSpaces(s[1..])..] == s[LeadingSpaces(s)..];
    }
  }

  lemma {:induction false} TrimRightAfter(p: string, y: string)
    requires y != "" && !IsSpace(y[0])
    ensures TrimRight(p + y) == p + TrimRight(y) && TrimRight(y) != "" && TrimRight(y)[0] == y[0]
    decreases |y|
  {
    if IsSpace(y[|y| - 1]) {
      assert (p + y)[..|p + y| - 1] == p + y[..|y| - 1];
      TrimRightAfter(p, y[..|y| - 1]);
    }
  }

  lemma {:induction false} TrimRightSpaces(s: string)
    requires Spaces(s)
    ensures TrimRight(s) == ""
  {
    if s != "" {
      TrimRightSpaces(s[..|s| - 1]);
    }
  }

  lemma {:induction false} TrailingDotsAfter(p: string, y: string)
    ensures DropTrailingDots(y) != "" ==> DropTrailingDots(p + y) == p + DropTrailingDots(y)
    ensures DropTrailingDots(y) == "" ==> DropTrailingDots(p + y) == DropTrailingDots(p)
    decreases |y|
  {
    if y == "" {
      assert p + y == p;
    } else if y[|y| - 1] == '.' {
      assert (p + y)[..|p + y| - 1] == p + y[..|y| - 1];
      TrailingDotsAfter(p, y[..|y| - 1]);
    }
  }

  lemma SpacesKept(sp: string)
    requires Spaces(sp)
    ensures Lower(sp) == sp && DropTrailingDots(sp) == sp && '.' !in sp && '*' !in sp
  {
    assert forall c :: c in sp ==> IsSpace(c);
  }

  // A wildcard name, and the name it is stored under.

  /** Behind the wildcard label: what is left of a name, and whether white space stood in front of it. */
  datatype Rest = Rest(sp: string, y: string)

  function RestOf(rest: string): Rest {
    var k := LeadingSpaces(rest);
    Rest(rest[..k], Lower(TrimRight(rest[k..])))
  }

  /** White space, then something that does not begin in it. */
  lemma RestParts(rest: string)
    ensures var r := RestOf(rest);
      && Spaces(r.sp) && (r.y == "" || !IsSpace(r.y[0]))
      && Trailed(rest) == DropTrailingDots(r.y)
      && Lower(TrimRight(rest)) == if r.y == "" then "" else r.sp + r.y
  {
    var k := LeadingSpaces(rest);
    var sp, more := rest[..k], rest[k..];
    assert rest == sp + more;
    TrimLeftIs(rest);
    SpacesKept(sp);
    if more == "" {
      assert rest == sp;
      TrimRightSpaces(rest);
    } else {
      TrimRightAfter(sp, more);
      LowerConcat(sp, TrimRight(more));
    }
  }

  lemma TrimWildcard(h: string)
    requires "*." <= h
    ensures Lower(TrimSpace(h)) == "*." + Lower(TrimRight(h[2..]))
  {
    assert h == "*" + h[1..] && TrimLeft(h) == h;
    var rest := h[2..];
    assert h == "*." + rest;
    TrimRightWildcard(rest);
    LowerConcat("*.", TrimRight(rest));
    assert Lower("*.") == "*.";
  }

  lemma {:induction false} TrimRightWildcard(rest: string)
    ensures TrimRight("*." + rest) == "*." + TrimRight(rest)
  {
    if rest != "" && IsSpace(rest[|rest| - 1]) {
      assert ("*." + rest)[..|rest| + 1] == "*." + rest[..|rest| - 1];
      TrimRightWildcard(rest[..|rest| - 1]);
    } else if rest == "" {
      assert "*." + rest == "*.";
    }
  }

  lemma StarAlone()
    ensures DropTrailingDots("*.") == "*" && '*' in DropLeadingDots(DropWildcard("*"))
  {
    assert "*."[..1] == "*";
    assert DropTrailingDots("*") == "*" && DropWildcard("*") == "*" && DropLeadingDots("*") == "*";
  }

  /** Unless a wildcard is left of it, a wildcard name is normalised by what stands behind its wildcard label. */
  lemma WildcardNormal(h: string)
    requires "*." <= h && '*' !in NormalizeHostname(h)
    ensures var z := DropTrailingDots(Lower(TrimRight(h[2..])));
      NormalizeHostname(h) == DropLeadingDots(z) && z != ""
  {
    var y := Lower(TrimRight(h[2..]));
    TrimWildcard(h);
    TrailingDotsAfter("*.", y);
    StarAlone();
    assert ("*." + DropTrailingDots(y))[2..] == DropTrailingDots(y);
  }

  lemma RestDots(sp: string, y: string)
    requires Spaces(sp) && (y == "" || !IsSpace(y[0]))
    ensures var z := DropTrailingDots(y);
      DropTrailingDots(sp + y) == sp + z && (z == "" || !IsSpace(z[0]))
  {
    TrailingDotsAfter(sp, y);
    TrailingDotsDropped(y);
    SpacesKept(sp);
    assert sp + "" == sp;
  }

  lemma NormalFrom(hostname: string, c: string)
    requires Trailed(hostname) == c
    ensures NormalizeHostname(hostname) == DropLeadingDots(DropWildcard(c))
  {
  }

  /** The two canonical forms, side by side: the stored one has lost the white space in front. */
  lemma StoredForms(h: string) returns (sp: string, z: string)
    requires "*." <= h && '*' !in NormalizeHostname(h)
    ensures Spaces(sp) && (z == "" || !IsSpace(z[0]))
    ensures NormalizeHostname(h) == DropLeadingDots(sp + z)
    ensures NormalizeHostname(StoredName(h)) == DropLeadingDots(DropWildcard(z))
  {
    var r := RestOf(h[2..]);
    sp, z := r.sp, DropTrailingDots(r.y);
    RestParts(h[2..]);
    WildcardNormal(h);
    RestDots(sp, r.y);
    NormalFrom(h[2..], z);
  }

  lemma NoStarTail(p: string, z: string)
    requires '*' !in p + z
    ensures '*' !in z && DropWildcard(z) == z
  {
    assert forall c :: c in z ==> c in p + z;
    if "*." <= z {
      StarInside(z);
    }
  }

  lemma StarInside(z: string)
    requires "*." <= z
    ensures '*' in z
  {
    assert z[0] == '*' && z[0] in z;
  }

  lemma StarKept(z: string)
    requires "*." <= z
    ensures '*' in DropLeadingDots(z)
  {
    assert DropLeadingDots(z) == z && z[0] == '*' && z[0] in z;
  }

  lemma NotAtFront(z: string)
    requires '*' !in DropLeadingDots(z)
    ensures DropWildcard(z) == z
  {
    if "*." <= z {
      StarKept(z);
    }
  }

  /** A dotted suffix is not cut by what is trimmed in front of it. */
  lemma SuffixBehindSpaces(sp: string, z: string, s: string)
    requires '.' !in sp && HasSuffix(sp + z, "." + s)
    ensures HasSuffix(z, "." + s)
  {
    var at := |sp + z| - |s| - 1;
    assert (sp + z)[at..][0] == '.' && (sp + z)[at] == '.';
    assert at >= |sp|;
    assert (sp + z)[at..] == z[at - |sp|..];
  }

  lemma {:induction false} SuffixBehindDots(z: string, s: string)
    requires HasSuffix(z, "." + s) && s != "" && s[0] != '.'
    ensures Under(DropLeadingDots(z), s)
  {
    if z[0] == '.' {
      if |z| == |s| + 1 {
        assert z == "." + s && z[1..] == s;
      } else {
        assert z[1..][|z| - |s| - 2..] == z[|z| - |s| - 1..];
        SuffixBehindDots(z[1..], s);
      }
    }
  }

  lemma {:induction false} NoStarLeft(z: string)
    requires '*' !in z
    ensures '*' !in DropLeadingDots(z)
  {
    if z != "" && z[0] == '.' {
      assert forall c :: c in z[1..] ==> c in z;
      NoStarLeft(z[1..]);
    }
  }

  /** What a suffix that begins in white space is stored as, the client may manage too. */
  ghost predicate SuffixesStored(client: ClientPolicy) {
    forall s :: s in client.suffixes && s != "" && IsSpace(s[0]) ==> Managed(client, DropLeadingDots(TrimLeft(s)))
  }

  lemma TrimSpaced(sp: string, z: string)
    requires Spaces(sp) && (z == "" || !IsSpace(z[0]))
    ensures TrimLeft(sp + z) == z
  {
    TrimLeftIs(sp + z);
    assert forall i :: 0 <= i < |sp| ==> IsSpace((sp + z)[i]);
    assert z != "" ==> !IsSpace((sp + z)[|sp|]);
    assert LeadingSpaces(sp + z) == |sp|;
    assert (sp + z)[|sp|..] == z;
  }

  lemma StoredManaged(client: ClientPolicy, sp: string, z: string)
    requires Canonical(client) && SuffixesStored(client) && Spaces(sp) && sp != "" && (z == "" || !IsSpace(z[0]))
    requires Managed(client, sp + z)
    ensures Managed(client, DropLeadingDots(z))
  {
    var i :| 0 <= i < |client.suffixes| && Under(sp + z, client.suffixes[i]);
    var s := client.suffixes[i];
    assert s in client.suffixes;
    SpacesKept(sp);
    NoStarTail(sp, z);
    if sp + z == s {
      assert s[0] == sp[0];
      TrimSpaced(sp, z);
    } else {
      SuffixBehindSpaces(sp, z, s);
      SuffixBehindDots(z, s);
      NoStarLeft(z);
    }
  }

  lemma StoredStillAllowed(client: ClientPolicy, hostname: string)
    requires Canonical(client) && SuffixesStored(client) && HostnameAllowed(client, Str(hostname))
    ensures HostnameAllowed(client, Str(StoredName(hostname)))
  {
    if "*." <= hostname {
      var sp, z := StoredForms(hostname);
      if sp == "" {
        assert sp + z == z;
        NotAtFront(z);
      } else {
        assert (sp + z)[0] == sp[0] && DropLeadingDots(sp + z) == sp + z;
        NoStarTail(sp, z);
        StoredManaged(client, sp, z);
      }
    }
  }

  // The suffixes for which it fails.

  lemma QualifiedWildcard(s: string)
    requires CanonicalSuffix(s)
    ensures NormalizeHostname("*." + s + ".") == DropLeadingDots(s)
  {
    var h, rest := "*." + s + ".", s + ".";
    assert h == "*." + rest && h[2..] == rest;
    TrimWildcard(h);
    assert TrimRight(rest) == rest;
    DotCut(s);
    TrailingDotsAfter("*.", Lower(rest));
    assert ("*." + s)[2..] == s;
    NormalFrom(h, "*." + s);
  }

  lemma TrimQualified(s: string)
    ensures TrimSpace(s + ".") == TrimLeft(s) + "."
  {
    var k := LeadingSpaces(s);
    TrimLeftIs(s);
    assert s + "." == s[..k] + (s[k..] + ".");
    TrimSpaced(s[..k], s[k..] + ".");
  }

  lemma DotCut(t: string)
    requires IsLower(t) && (t == "" || t[|t| - 1] != '.')
    ensures DropTrailingDots(Lower(t + ".")) == t
  {
    LowerConcat(t, ".");
    assert Lower(".") == ".";
    assert (t + ".")[..|t|] == t;
  }

  lemma TrimmedSuffix(s: string)
    requires CanonicalSuffix(s)
    ensures var t := TrimLeft(s); IsLower(t) && (t == "" || t[|t| - 1] != '.')
  {
    TrimLeftIs(s);
    TailKeeps(s, LeadingSpaces(s));
  }

  lemma TrimmedStarless(s: string)
    requires CanonicalSuffix(s)
    ensures DropWildcard(TrimLeft(s)) == TrimLeft(s)
  {
    TrimLeftIs(s);
    assert s == s[..LeadingSpaces(s)] + TrimLeft(s);
    NoStarTail(s[..LeadingSpaces(s)], TrimLeft(s));
  }

  lemma QualifiedStored(s: string)
    requires CanonicalSuffix(s)
    ensures NormalizeHostname(s + ".") == DropLeadingDots(TrimLeft(s))
  {
    TrimQualified(s);
    TrimmedSuffix(s);
    TrimmedStarless(s);
    DotCut(TrimLeft(s));
    NormalFrom(s + ".", TrimLeft(s));
  }

  lemma SuffixItself(client: ClientPolicy, s: string)
    requires Canonical(client) && s in client.suffixes && IsSpace(s[0])
    ensures HostnameAllowed(client, Str("*." + s + ".")) && StoredName("*." + s + ".") == s + "."
  {
    QualifiedWildcard(s);
    var i :| 0 <= i < |client.suffixes| && client.suffixes[i] == s;
    assert DropLeadingDots(s) == s && Under(s, client.suffixes[i]);
    assert "*." + s + "." == "*." + (s + ".");
  }

  /**
   Every name a client may use is one it may manage in the form it is stored in, exactly when each of its
   suffixes that begins in white space stands for a name it may manage without it.
   */
  lemma StoredAllowedExactly(client: ClientPolicy)
    requires Canonical(client)
    ensures SuffixesStored(client) <==>
      forall h :: HostnameAllowed(client, Str(h)) ==> HostnameAllowed(client, Str(StoredName(h)))
  {
    if SuffixesStored(client) {
      forall h | HostnameAllowed(client, Str(h))
        ensures HostnameAllowed(client, Str(StoredName(h)))
      {
        StoredStillAllowed(client, h);
      }
    } else {
      var s :| s in client.suffixes && s != "" && IsSpace(s[0]) && !Managed(client, DropLeadingDots(TrimLeft(s)));
      SuffixItself(client, s);
      QualifiedStored(s);
    }
  }
}
