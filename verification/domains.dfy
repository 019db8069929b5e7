/**
 Domain suffixes. The program compares strings: a host is under a domain when it equals it or ends
 in a dot and the domain. The same thing said on dot-separated labels is what makes it sound.
 */
module Domains {
  import opened Text

  predicate Under(host: string, domain: string) {
    host == domain || HasSuffix(host, "." + domain)
  }

  function Labels(name: string): seq<string> {
    Split(name, '.')
  }

  ghost predicate LabelSuffix(host: seq<string>, domain: seq<string>) {
    |domain| <= |host| && host[|host| - |domain|..] == domain
  }

  lemma {:induction false} SplitAtDot(p: string, d: string)
    ensures Labels(p + "." + d) == Labels(p) + Labels(d)
  {
    var whole := p + "." + d;
    if p == "" {
      assert whole[1..] == d;
    } else {
      assert whole[1..] == p[1..] + "." + d;
      SplitAtDot(p[1..], d);
    }
  }

  lemma {:induction false} JoinAppend(a: seq<string>, b: seq<string>)
    requires a != [] && b != []
    ensures Join(a + b, '.') == Join(a, '.') + "." + Join(b, '.')
  {
    if |a| == 1 {
      assert (a + b)[1..] == b;
    } else {
      assert (a + b)[1..] == a[1..] + b;
      JoinAppend(a[1..], b);
    }
  }

  /** The string test is exactly "the domain's labels are the host's last labels". */
  lemma UnderIsLabelSuffix(host: string, domain: string)
    ensures Under(host, domain) <==> LabelSuffix(Labels(host), Labels(domain))
  {
    var hs, ds := Labels(host), Labels(domain);
    if Under(host, domain) && host != domain {
      var p := host[..|host| - |domain| - 1];
      assert host == p + "." + domain;
      SplitAtDot(p, domain);
    }
    if LabelSuffix(hs, ds) {
      JoinSplit(host, '.');
      JoinSplit(domain, '.');
      var pre := hs[..|hs| - |ds|];
      assert hs == pre + ds;
      if pre == [] {
        assert hs == ds;
      } else {
        JoinAppend(pre, ds);
        assert host == Join(pre, '.') + "." + domain;
        assert host[|host| - |domain| - 1..] == "." + domain;
      }
    }
  }

  /** A subdomain of a name under a domain is under the domain too. */
  lemma UnderTransitive(host: string, middle: string, domain: string)
    requires Under(host, middle) && Under(middle, domain)
    ensures Under(host, domain)
  {
    UnderIsLabelSuffix(host, middle);
    UnderIsLabelSuffix(middle, domain);
    UnderIsLabelSuffix(host, domain);
    var hs, ms, ds := Labels(host), Labels(middle), Labels(domain);
    assert hs[|hs| - |ds|..] == hs[|hs| - |ms|..][|ms| - |ds|..];
  }

  /** Of two different domains over the same host one is strictly longer. */
  lemma UnderSameLength(host: string, a: string, b: string)
    requires Under(host, a) && Under(host, b) && |a| == |b|
    ensures a == b
  {
    assert host[|host| - |a|..] == a && host[|host| - |b|..] == b;
  }
}
