/**
 The text of the managed ConfigMap key: one CoreDNS rewrite per line. The text is the only state,
 so what is printed must parse back to exactly what was meant.
 */
module FragmentCodec {
  import opened Wrappers
  import opened Text
  import opened Sorting

  /** Host to cluster-local name. */
  type Rewrites = map<string, string>

  const HEADER := "# Managed by external-dns" + " (cfzt webhook provider)." + " Do not edit by hand."

  /** The keyword part of a rewrite line. */
  const DIRECTIVE := ["rewrite", "name", "exact"]

  function FiveWords(a: string, b: string, c: string, d: string, e: string): string {
    a + (" " + (b + (" " + (c + (" " + (d + (" " + e)))))))
  }

  function RewriteLine(host: string, target: string): string {
    FiveWords("rewrite", "name", "exact", host, target)
  }

  function RenderLines(hosts: seq<string>, m: Rewrites): string
    requires forall i :: 0 <= i < |hosts| ==> hosts[i] in m
  {
    if hosts == [] then ""
    else RewriteLine(hosts[0], m[hosts[0]]) + "\n" + RenderLines(hosts[1..], m)
  }

  ghost function RenderUnder(header: string, m: Rewrites): string {
    var hosts := SortSet(m.Keys);
    assert forall i :: 0 <= i < |hosts| ==> hosts[i] in multiset(hosts);
    header + "\n" + RenderLines(hosts, m)
  }

  ghost function Render(m: Rewrites): string {
    RenderUnder(HEADER, m)
  }

  /** What one line contributes; unrecognised lines contribute nothing. */
  function ParseLine(line: string): Rewrites {
    var fields := Fields(line);
    if |fields| == 5 && fields[..3] == DIRECTIVE then map[Lower(fields[3]) := fields[4]] else map[]
  }

  /** Later lines win. */
  function ParseLines(lines: seq<string>): Rewrites {
    if lines == [] then map[] else ParseLine(lines[0]) + ParseLines(lines[1..])
  }

  function Parse(text: string): Rewrites {
    ParseLines(Split(text, '\n'))
  }

  /** The maps the text can carry: lower-case white-space-free hosts, white-space-free targets. */
  ghost predicate Carriable(m: Rewrites) {
    forall h :: h in m ==> IsToken(h) && IsLower(h) && IsToken(m[h])
  }

  lemma LowerToken(s: string)
    requires IsToken(s)
    ensures IsToken(Lower(s))
  {
    forall i | 0 <= i < |s|
      ensures !IsSpace(Lower(s)[i])
    {
      assert !IsSpace(s[i]);
    }
  }

  lemma {:induction false} ParsedLinesCarriable(lines: seq<string>)
    ensures Carriable(ParseLines(lines))
  {
    if lines != [] {
      ParsedLinesCarriable(lines[1..]);
      var fields := Fields(lines[0]);
      if |fields| == 5 {
        LowerToken(fields[3]);
        LowerIdempotent(fields[3]);
      }
    }
  }

  /** Whatever text an operator left in the key, the rewrites read from it can be written back. */
  lemma ParsedCarriable(text: string)
    ensures Carriable(Parse(text))
  {
    ParsedLinesCarriable(Split(text, '\n'));
  }

  lemma SpaceFirst(s: string)
    ensures Fields(" " + s) == Fields(s)
  {
    assert (" " + s)[1..] == s;
  }

  lemma WordThen(word: string, rest: string)
    requires IsToken(word)
    ensures Fields(word + (" " + rest)) == [word] + Fields(rest)
  {
    FieldsFirst(word, " " + rest);
    SpaceFirst(rest);
  }

  lemma LastWord(word: string)
    requires IsToken(word)
    ensures Fields(word) == [word]
  {
    FieldsFirst(word, "");
    assert word + "" == word;
  }

  lemma FiveWordsFields(a: string, b: string, c: string, d: string, e: string)
    requires IsToken(a) && IsToken(b) && IsToken(c) && IsToken(d) && IsToken(e)
    ensures Fields(FiveWords(a, b, c, d, e)) == [a, b, c, d, e]
  {
    var de := d + (" " + e);
    var cde := c + (" " + de);
    var bcde := b + (" " + cde);
    LastWord(e);
    WordThen(d, e);
    WordThen(c, de);
    WordThen(b, cde);
    WordThen(a, bcde);
  }

  lemma RewriteLineFields(host: string, target: string)
    requires IsToken(host) && IsToken(target)
    ensures Fields(RewriteLine(host, target)) == DIRECTIVE + [host, target]
  {
    FiveWordsFields("rewrite", "name", "exact", host, target);
  }

  lemma TokenHasNoNewline(s: string)
    requires IsToken(s)
    ensures '\n' !in s
  {
    assert IsSpace('\n');
    assert forall i :: 0 <= i < |s| ==> s[i] != '\n';
  }

  lemma RewriteLineHasNoNewline(host: string, target: string)
    requires IsToken(host) && IsToken(target)
    ensures '\n' !in RewriteLine(host, target)
  {
    TokenHasNoNewline(host);
    TokenHasNoNewline(target);
  }

  lemma ParseFirst(line: string, rest: string)
    requires '\n' !in line
    ensures Parse(line + "\n" + rest) == ParseLine(line) + Parse(rest)
  {
    SplitFirst(line, rest, '\n');
    var lines := [line] + Split(rest, '\n');
    assert lines[1..] == Split(rest, '\n');
    assert ParseLines(lines) == ParseLine(lines[0]) + ParseLines(lines[1..]);
  }

  lemma ParseRewriteLine(host: string, target: string)
    requires IsToken(host) && IsLower(host) && IsToken(target)
    ensures '\n' !in RewriteLine(host, target)
    ensures ParseLine(RewriteLine(host, target)) == map[host := target]
  {
    RewriteLineHasNoNewline(host, target);
    RewriteLineFields(host, target);
    var fields := DIRECTIVE + [host, target];
    assert fields[..3] == DIRECTIVE && fields[3] == host && fields[4] == target;
  }

  ghost function Only(m: Rewrites, hosts: seq<string>): Rewrites {
    map h | h in m && h in hosts :: m[h]
  }

  lemma {:induction false} ParseRenderedLines(hosts: seq<string>, m: Rewrites)
    requires forall i :: 0 <= i < |hosts| ==> hosts[i] in m
    requires Carriable(m)
    ensures Parse(RenderLines(hosts, m)) == Only(m, hosts)
  {
    if hosts == [] {
      assert Fields("") == [];
    } else {
      var h, rest := hosts[0], RenderLines(hosts[1..], m);
      ParseRewriteLine(h, m[h]);
      ParseFirst(RewriteLine(h, m[h]), rest);
      ParseRenderedLines(hosts[1..], m);
      OnlyFirst(m, hosts);
    }
  }

  lemma OnlyFirst(m: Rewrites, hosts: seq<string>)
    requires hosts != [] && hosts[0] in m
    ensures Only(m, hosts) == map[hosts[0] := m[hosts[0]]] + Only(m, hosts[1..])
  {
    assert hosts == [hosts[0]] + hosts[1..];
  }

  lemma HeaderIsNoRewrite()
    ensures '\n' !in HEADER
    ensures ParseLine(HEADER) == map[]
  {
    assert '\n' !in "# Managed by external-dns" && '\n' !in " (cfzt webhook provider)." &&
      '\n' !in " Do not edit by hand.";
    assert HEADER[0] == '#';
    NotADirective(HEADER);
  }

  lemma NotADirective(line: string)
    requires line != "" && line[0] == '#'
    ensures ParseLine(line) == map[]
  {
    var fields := Fields(line);
    assert fields[0] == line[..TokenLength(line)];
    assert fields[0][0] == '#' && "rewrite"[0] == 'r';
    assert fields[0] != DIRECTIVE[0];
    assert |fields| == 5 ==> fields[..3][0] == fields[0];
  }

  lemma AllHosts(m: Rewrites)
    ensures forall h :: h in SortSet(m.Keys) <==> h in m
    ensures Only(m, SortSet(m.Keys)) == m
  {
    var hosts := SortSet(m.Keys);
    forall h
      ensures h in hosts <==> h in m
    {
      assert h in hosts <==> h in multiset(hosts);
    }
  }

  /** A line that is no rewrite adds nothing to the text behind it. */
  lemma BehindHeader(header: string, body: string)
    requires '\n' !in header && ParseLine(header) == map[]
    ensures Parse(header + "\n" + body) == Parse(body)
  {
    ParseFirst(header, body);
    assert map[] + Parse(body) == Parse(body);
  }

  lemma RoundTripUnder(header: string, m: Rewrites)
    requires '\n' !in header && ParseLine(header) == map[]
    requires Carriable(m)
    ensures Parse(RenderUnder(header, m)) == m
  {
    AllHosts(m);
    var hosts := SortSet(m.Keys);
    var body := RenderLines(hosts, m);
    assert RenderUnder(header, m) == header + "\n" + body;
    BehindHeader(header, body);
    ParseRenderedLines(hosts, m);
  }

  /** Printing then parsing gives the map back exactly when the text can carry the map. */
  lemma RoundTrip(m: Rewrites)
    ensures Parse(Render(m)) == m <==> Carriable(m)
  {
    ParsedCarriable(Render(m));
    if Carriable(m) {
      HeaderIsNoRewrite();
      RoundTripUnder(HEADER, m);
    }
  }

  /** Two maps the text can carry never print alike. */
  lemma RenderInjective(a: Rewrites, b: Rewrites)
    requires Carriable(a) && Carriable(b)
    requires Render(a) == Render(b)
    ensures a == b
  {
    RoundTrip(a);
    RoundTrip(b);
  }

  lemma ParseLineByFields(line: string, out: Rewrites)
    ensures var fields := Fields(line);
      out + ParseLine(line) ==
      if |fields| == 5 && fields[0] == "rewrite" && fields[1] == "name" && fields[2] == "exact"
      then out[Lower(fields[3]) := fields[4]] else out
  {
    var fields := Fields(line);
    if |fields| == 5 {
      assert fields[..3] == [fields[0], fields[1], fields[2]];
    }
  }

  lemma ParseNext(lines: seq<string>, i: nat, out: Rewrites)
    requires i < |lines|
    ensures out + ParseLines(lines[i..]) == (out + ParseLine(lines[i])) + ParseLines(lines[i + 1..])
  {
    assert lines[i..][1..] == lines[i + 1..];
  }

  /** In words, the line is a rewrite of this host, in whatever letter case, to this target. */
  ghost predicate Directs(line: string, h: string, target: string) {
    exists host :: Fields(line) == ["rewrite", "name", "exact", host, target] && Lower(host) == h
  }

  /** At line k the host is rewritten to the target, and in no later line again. */
  ghost predicate DirectsLast(lines: seq<string>, k: nat, h: string, target: string) {
    k < |lines| && Directs(lines[k], h, target) && forall j, t :: k < j < |lines| ==> !Directs(lines[j], h, t)
  }

  ghost predicate Says(lines: seq<string>, h: string, target: string) {
    exists k: nat :: DirectsLast(lines, k, h, target)
  }

  lemma LineExact(line: string, h: string, target: string)
    ensures h in ParseLine(line) && ParseLine(line)[h] == target <==> Directs(line, h, target)
  {
    ParseLineByFields(line, map[]);
    var fields := Fields(line);
    if |fields| == 5 && fields[0] == "rewrite" && fields[1] == "name" && fields[2] == "exact" {
      assert fields == ["rewrite", "name", "exact", fields[3], fields[4]];
    }
  }

  lemma {:induction false} LinesExact(lines: seq<string>, h: string, target: string)
    ensures h in ParseLines(lines) && ParseLines(lines)[h] == target <==> Says(lines, h, target)
    decreases |lines|
  {
    if lines != [] {
      var rest := lines[1..];
      LineExact(lines[0], h, target);
      LinesExact(rest, h, target);
      LinesNone(rest, h);
      if k: nat :| DirectsLast(rest, k, h, target) {
        assert DirectsLast(lines, k + 1, h, target);
      }
      if k: nat :| DirectsLast(lines, k, h, target) {
        assert k > 0 ==> DirectsLast(rest, k - 1, h, target);
        assert k == 0 ==> forall j, t :: 0 <= j < |rest| ==> rest[j] == lines[j + 1] && !Directs(rest[j], h, t);
      }
      if h !in ParseLines(rest) && Directs(lines[0], h, target) {
        assert forall j :: 0 < j < |lines| ==> lines[j] == rest[j - 1];
        assert DirectsLast(lines, 0, h, target);
      }
    }
  }

  lemma {:induction false} LinesNone(lines: seq<string>, h: string)
    ensures h !in ParseLines(lines) <==> forall j, t :: 0 <= j < |lines| ==> !Directs(lines[j], h, t)
    decreases |lines|
  {
    if lines != [] {
      LinesNone(lines[1..], h);
      forall t
        ensures h in ParseLine(lines[0]) && ParseLine(lines[0])[h] == t <==> Directs(lines[0], h, t)
      {
        LineExact(lines[0], h, t);
      }
      if h in ParseLine(lines[0]) {
        assert Directs(lines[0], h, ParseLine(lines[0])[h]);
      }
      if j, t :| 0 <= j < |lines| - 1 && Directs(lines[1..][j], h, t) {
        assert Directs(lines[j + 1], h, t);
      }
      assert forall j :: 0 < j < |lines| ==> lines[j] == lines[1..][j - 1];
    }
  }

  /** What the key says of a host, by its lines: the target of the last rewrite of it. */
  lemma ParseExact(text: string, h: string, target: string)
    ensures h in Parse(text) && Parse(text)[h] == target <==> Says(Split(text, '\n'), h, target)
  {
    LinesExact(Split(text, '\n'), h, target);
  }

  /** The loop over the key's lines. */
  method ParseRewrites(text: string) returns (out: Rewrites)
    ensures out == Parse(text)
  {
    out := map[];
    var lines := Split(text, '\n');
    assert lines[0..] == lines;
    for i := 0 to |lines|
      invariant out + ParseLines(lines[i..]) == ParseLines(lines)
    {
      ParseNext(lines, i, out);
      ParseLineByFields(lines[i], out);
      var fields := Fields(lines[i]);
      if |fields| == 5 && fields[0] == "rewrite" && fields[1] == "name" && fields[2] == "exact" {
        out := out[Lower(fields[3]) := fields[4]];
      }
    }
  }

  /** The hosts are collected in any order and sorted, so equal maps print byte for byte alike. */
  method RenderRewrites(header: string, rewrites: Rewrites) returns (text: string)
    ensures text == RenderUnder(header, rewrites)
  {
    var hosts := SortedElements(rewrites.Keys);
    AllHosts(rewrites);
    text := RenderHosts(header + "\n", hosts, rewrites);
  }

  method RenderHosts(top: string, hosts: seq<string>, rewrites: Rewrites) returns (text: string)
    requires forall i :: 0 <= i < |hosts| ==> hosts[i] in rewrites
    ensures text == top + RenderLines(hosts, rewrites)
  {
    text := top;
    for i := 0 to |hosts|
      invariant text + RenderLines(hosts[i..], rewrites) == top + RenderLines(hosts, rewrites)
    {
      assert hosts[i..][1..] == hosts[i + 1..];
      var line := RewriteLine(hosts[i], rewrites[hosts[i]]) + "\n";
      assert text + (line + RenderLines(hosts[i + 1..], rewrites))
          == (text + line) + RenderLines(hosts[i + 1..], rewrites);
      text := text + line;
    }
  }

  /** Equal length and every value found on the other side; a missing key reads as "". */
  function SameRewrites(a: Rewrites, b: Rewrites): bool {
    |a| == |b| && forall k :: k in a ==> (if k in b then b[k] else "") == a[k]
  }

  /** Because parsed values are never empty, a missing key cannot be mistaken for a match. */
  lemma SameRewritesIsEquality(a: Rewrites, b: Rewrites)
    requires Carriable(a)
    ensures SameRewrites(a, b) <==> a == b
  {
    if SameRewrites(a, b) {
      forall k | k in a
        ensures k in b && b[k] == a[k]
      {
        assert IsToken(a[k]);
      }
      SubsetOfEqualSize(a.Keys, b.Keys);
      assert |a.Keys| == |a| && |b.Keys| == |b|;
    }
  }

  lemma SubsetOfEqualSize<T>(a: set<T>, b: set<T>)
    requires a <= b
    ensures |a| <= |b|
    ensures |a| == |b| ==> a == b
  {
    assert b == a + (b - a);
  }
}
