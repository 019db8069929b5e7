/**
 The string operations the program uses, over the characters Go and JavaScript agree on:
 trimming, lower-casing (ASCII letters), prefixes and suffixes, splitting into lines and fields.
 */
module Text {
  import opened Wrappers

  /** White space as Go's unicode.IsSpace lists it. */
  predicate IsSpace(c: char) {
    c == ' ' || '\t' <= c <= '\r' || c == '\U{85}' || c == '\U{A0}' || c == '\U{1680}' ||
    '\U{2000}' <= c <= '\U{200A}' || c == '\U{2028}' || c == '\U{2029}' || c == '\U{202F}' ||
    c == '\U{205F}' || c == '\U{3000}'
  }

  function LowerChar(c: char): char {
    if 'A' <= c <= 'Z' then c - 'A' + 'a' else c
  }

  function Lower(s: string): (r: string)
    ensures |r| == |s|
    ensures forall i :: 0 <= i < |s| ==> r[i] == LowerChar(s[i])
  {
    seq(|s|, i requires 0 <= i < |s| => LowerChar(s[i]))
  }

  const CAPITALS := "ABCDEFGHIJKLMNOPQRSTUVWXYZ"

  lemma IsCapital(c: char)
    ensures 'A' <= c <= 'Z' ==> c in CAPITALS
  {
    if 'A' <= c <= 'Z' {
      assert CAPITALS[c as int - 'A' as int] == c;
    }
  }

  /** The letters, one by one; every other character stays. */
  lemma LowerLetters(s: string)
    ensures Lower(CAPITALS) == "abcdefghijklmnopqrstuvwxyz"
    ensures (forall i :: 0 <= i < |s| ==> s[i] !in CAPITALS) ==> Lower(s) == s
  {
    forall i | 0 <= i < |s|
      ensures 'A' <= s[i] <= 'Z' ==> s[i] in CAPITALS
    {
      IsCapital(s[i]);
    }
  }

  lemma LowerIdempotent(s: string)
    ensures Lower(Lower(s)) == Lower(s)
  {
  }

  lemma LowerConcat(s: string, t: string)
    ensures Lower(s + t) == Lower(s) + Lower(t)
  {
  }

  function TrimLeft(s: string): (r: string) {
    if s != "" && IsSpace(s[0]) then TrimLeft(s[1..]) else s
  }

  function TrimRight(s: string): (r: string) {
    if s != "" && IsSpace(s[|s| - 1]) then TrimRight(s[..|s| - 1]) else s
  }

  function TrimSpace(s: string): (r: string) {
    TrimRight(TrimLeft(s))
  }

  lemma TrimRightShrinks(s: string)
    ensures |TrimRight(s)| <= |s|
  {
  }

  lemma {:induction false} TrimLeftShrinks(s: string)
    ensures |TrimLeft(s)| <= |s|
  {
    if s != "" && IsSpace(s[0]) {
      TrimLeftShrinks(s[1..]);
    }
  }

  ghost predicate Blank(s: string) {
    forall i :: 0 <= i < |s| ==> IsSpace(s[i])
  }

  /** A string without white space at its ends. */
  predicate Unspaced(s: string) {
    s == "" || (!IsSpace(s[0]) && !IsSpace(s[|s| - 1]))
  }

  lemma {:induction false} TrimLeftCuts(s: string)
    ensures var t := TrimLeft(s);
      && |t| <= |s| && s[|s| - |t|..] == t && Blank(s[..|s| - |t|]) && (t == "" || !IsSpace(t[0]))
  {
    if s != "" && IsSpace(s[0]) {
      TrimLeftCuts(s[1..]);
      var n := |s| - |TrimLeft(s)|;
      assert s[..n] == [s[0]] + s[1..][..n - 1];
    }
  }

  lemma {:induction false} TrimRightCuts(s: string)
    ensures var t := TrimRight(s);
      && |t| <= |s| && s[..|t|] == t && Blank(s[|t|..]) && (t == "" || !IsSpace(t[|t| - 1]))
  {
    if s != "" && IsSpace(s[|s| - 1]) {
      TrimRightCuts(s[..|s| - 1]);
      var n := |TrimRight(s)|;
      assert s[n..] == s[..|s| - 1][n..] + [s[|s| - 1]];
    }
  }

  /** What is left of s between white space at its ends. */
  ghost predicate Between(s: string, left: string, t: string, right: string) {
    s == left + t + right && Blank(left) && Blank(right) && Unspaced(t)
  }

  lemma TrimSpaceBetween(s: string)
    ensures exists left, right :: Between(s, left, TrimSpace(s), right)
  {
    TrimLeftCuts(s);
    var a := TrimLeft(s);
    TrimRightCuts(a);
    var t := TrimSpace(s);
    var left, right := s[..|s| - |a|], a[|t|..];
    assert a == t + right && s == left + a;
    assert s == left + t + right;
    assert Between(s, left, TrimSpace(s), right);
  }

  lemma BetweenOnce(s: string, a: string, t: string, b: string, c: string, u: string, d: string)
    requires Between(s, a, t, b) && Between(s, c, u, d) && t != ""
    ensures u == t
  {
    assert s[|a|] == t[0] && s[|a| + |t| - 1] == t[|t| - 1];
    assert forall i :: 0 <= i < |a| ==> s[i] == a[i];
    assert forall i :: |a| + |t| <= i < |s| ==> s[i] == b[i - |a| - |t|];
    assert forall i :: 0 <= i < |c| ==> s[i] == c[i];
    assert forall i :: |c| + |u| <= i < |s| ==> s[i] == d[i - |c| - |u|];
    assert |c| <= |a| && |a| + |t| <= |c| + |u|;
    assert s[|c|] == u[0] && s[|c| + |u| - 1] == u[|u| - 1];
    assert t == s[|a|..|a| + |t|] && u == s[|c|..|c| + |u|];
  }

  /** Trimming leaves exactly what stands between the white space at both ends. */
  lemma TrimSpaceExact(s: string, t: string)
    ensures TrimSpace(s) == t <==> exists left, right :: Between(s, left, t, right)
  {
    TrimSpaceBetween(s);
    var a, b :| Between(s, a, TrimSpace(s), b);
    forall c, d | Between(s, c, t, d)
      ensures TrimSpace(s) == t
    {
      if TrimSpace(s) != "" {
        BetweenOnce(s, a, TrimSpace(s), b, c, t, d);
      } else if t != "" {
        BetweenOnce(s, c, t, d, a, TrimSpace(s), b);
      }
    }
  }

  predicate HasSuffix(s: string, t: string) {
    |t| <= |s| && s[|s| - |t|..] == t
  }

  /** A non-empty string without white space: what strings.Fields yields. */
  predicate IsToken(s: string) {
    s != "" && forall i :: 0 <= i < |s| ==> !IsSpace(s[i])
  }

  predicate IsLower(s: string) {
    Lower(s) == s
  }

  /** strings.Split(s, sep) for a one-character separator. */
  function Split(s: string, sep: char): (parts: seq<string>)
    ensures |parts| > 0
  {
    if s == "" then [""]
    else
      var rest := Split(s[1..], sep);
      if s[0] == sep then [""] + rest else [[s[0]] + rest[0]] + rest[1..]
  }

  /** strings.Join for a one-character separator. */
  function Join(parts: seq<string>, sep: char): string
    requires |parts| > 0
  {
    if |parts| == 1 then parts[0] else parts[0] + [sep] + Join(parts[1..], sep)
  }

  lemma {:induction false} SplitFirst(part: string, s: string, sep: char)
    requires sep !in part
    ensures Split(part + [sep] + s, sep) == [part] + Split(s, sep)
  {
    var whole := part + [sep] + s;
    if part == "" {
      assert whole[1..] == s;
    } else {
      assert whole[1..] == part[1..] + [sep] + s;
      SplitFirst(part[1..], s, sep);
      assert [part[0]] + part[1..] == part;
    }
  }

  lemma {:induction false} SplitWhole(part: string, sep: char)
    requires sep !in part
    ensures Split(part, sep) == [part]
  {
    if part != "" {
      SplitWhole(part[1..], sep);
      assert [part[0]] + part[1..] == part;
    }
  }

  lemma {:induction false} SplitParts(s: string, sep: char)
    ensures forall i :: 0 <= i < |Split(s, sep)| ==> sep !in Split(s, sep)[i]
  {
    if s != "" {
      SplitParts(s[1..], sep);
    }
  }

  lemma {:induction false} JoinSplit(s: string, sep: char)
    ensures Join(Split(s, sep), sep) == s
  {
    if s != "" {
      JoinSplit(s[1..], sep);
      var rest := Split(s[1..], sep);
      var parts := Split(s, sep);
      if s[0] == sep {
        assert parts[1..] == rest;
      } else {
        assert parts[1..] == rest[1..];
        assert s == [s[0]] + s[1..];
        if |rest| > 1 {
          assert Join(parts, sep) == [s[0]] + rest[0] + [sep] + Join(rest[1..], sep);
          assert Join(rest, sep) == rest[0] + [sep] + Join(rest[1..], sep);
        }
      }
    }
  }

  /** The length of the leading run of non-space characters. */
  function TokenLength(s: string): (n: nat)
    ensures n <= |s|
    ensures forall i :: 0 <= i < n ==> !IsSpace(s[i])
    ensures n < |s| ==> IsSpace(s[n])
  {
    if s == "" || IsSpace(s[0]) then 0 else 1 + TokenLength(s[1..])
  }

  /** strings.Fields. */
  function Fields(s: string): (fields: seq<string>)
    ensures forall i :: 0 <= i < |fields| ==> IsToken(fields[i])
    decreases |s|
  {
    if s == "" then []
    else if IsSpace(s[0]) then Fields(s[1..])
    else
      var n := TokenLength(s);
      [s[..n]] + Fields(s[n..])
  }

  lemma FieldsFirst(token: string, s: string)
    requires IsToken(token)
    requires s == "" || IsSpace(s[0])
    ensures Fields(token + s) == [token] + Fields(s)
  {
    var whole := token + s;
    var n := TokenLength(whole);
    assert forall i :: 0 <= i < |token| ==> whole[i] == token[i];
    assert s != "" ==> whole[|token|] == s[0];
    assert whole[..n] == token && whole[n..] == s;
  }

  /** strings.Cut for a one-character separator: before and after its first occurrence. */
  function Cut(s: string, sep: char): (r: Option<(string, string)>)
    ensures r.None? <==> sep !in s
    ensures r.Some? ==> s == r.value.0 + [sep] + r.value.1 && sep !in r.value.0
  {
    if s == "" then None
    else if s[0] == sep then Some(("", s[1..]))
    else
      match Cut(s[1..], sep)
      case None => None
      case Some((before, after)) => Some(([s[0]] + before, after))
  }

  /** The first separator is where the text is cut, and nowhere else. */
  lemma CutUnique(s: string, sep: char, before: string, after: string)
    requires s == before + [sep] + after && sep !in before
    ensures Cut(s, sep) == Some((before, after))
  {
    var (b, a) := Cut(s, sep).value;
    assert s[|before|] == sep && s[|b|] == sep;
    assert forall i :: 0 <= i < |before| ==> s[i] == before[i];
    assert forall i :: 0 <= i < |b| ==> s[i] == b[i];
    assert |b| == |before|;
    assert b == s[..|b|] && before == s[..|b|] && a == s[|b| + 1..] && after == s[|b| + 1..];
  }
}
