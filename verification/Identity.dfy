/**
 * Domain scopes: the patterns that say which hosts a credential may be sent to.
 *
 * A pattern is either a literal host or `*.suffix`.  The match relation is used between a
 * pattern and a host, and also between two patterns (a policy pattern against the domain a
 * lease asks for), so what matters is that it is a partial order on strings.
 */
module Identity {

  type DomainScope = string

  const WILDCARD: string := "*."

  predicate IsWildcard(pattern: DomainScope) {
    WILDCARD <= pattern
  }

  /** `suffix` with something in front of it that ends in a dot and is more than the dot. */
  predicate ProperSubdomain(suffix: string, host: string) {
    && |suffix| <= |host|
    && host[|host| - |suffix|..] == suffix
    && var rest := host[..|host| - |suffix|];
       |rest| > 1 && rest[|rest| - 1] == '.'
  }

  predicate Matches(pattern: DomainScope, host: string) {
    pattern == host || (IsWildcard(pattern) && ProperSubdomain(pattern[2..], host))
  }

  predicate AnyMatches(patterns: seq<DomainScope>, host: string) {
    exists i | 0 <= i < |patterns| :: Matches(patterns[i], host)
  }

  /**
   * A scope matches the host it names, and a wildcard also every host that is at least as long and
   * ends in the wildcard's dot and suffix.
   */
  lemma MatchesIff(pattern: DomainScope, host: string)
    ensures Matches(pattern, host) <==>
      || pattern == host
      || (&& |host| >= |pattern| >= 2 && pattern[0] == '*' && pattern[1] == '.'
          && host[|host| - |pattern| + 1..] == pattern[1..])
  {
    if |host| >= |pattern| >= 2 {
      var cut := |host| - |pattern| + 2;
      assert host[cut - 1..] == [host[cut - 1]] + host[cut..];
      assert pattern[1..] == [pattern[1]] + pattern[2..];
      assert |pattern[2..]| == |host| - cut;
    }
  }

  // ---- The match relation is a partial order ----

  /** A strictly wider pattern is never longer than what it matches. */
  lemma MatchesLength(p: DomainScope, q: string)
    requires Matches(p, q)
    ensures |p| <= |q|
  {
  }

  lemma MatchesAntisymmetric(p: DomainScope, q: DomainScope)
    requires Matches(p, q) && Matches(q, p)
    ensures p == q
  {
    MatchesLength(p, q);
    MatchesLength(q, p);
  }

  lemma MatchesTransitive(p: DomainScope, q: DomainScope, h: string)
    requires Matches(p, q) && Matches(q, h)
    ensures Matches(p, h)
  {
    if p != q && q != h {
      assert q[2..][|q| - |p|..] == p[2..];
    }
  }

  /** A partial order: a scope inside a scope inside a scope is inside it, and only equal scopes contain each other. */
  lemma MatchesPartialOrder(p: DomainScope, q: DomainScope, h: string)
    ensures Matches(p, p)
    ensures Matches(p, q) && Matches(q, p) ==> p == q
    ensures Matches(p, q) && Matches(q, h) ==> Matches(p, h)
  {
    if Matches(p, q) && Matches(q, p) {
      MatchesAntisymmetric(p, q);
    }
    if Matches(p, q) && Matches(q, h) {
      MatchesTransitive(p, q, h);
    }
  }

  lemma AnyMatchesTransitive(ps: seq<DomainScope>, q: DomainScope, h: string)
    requires AnyMatches(ps, q) && Matches(q, h)
    ensures AnyMatches(ps, h)
  {
    var i :| 0 <= i < |ps| && Matches(ps[i], q);
    MatchesTransitive(ps[i], q, h);
  }

  // ---- What a match means, label by label ----

  /** The dot-separated labels of a name; the empty name has one empty label. */
  function Labels(s: string): (ls: seq<string>)
    ensures |ls| >= 1
  {
    if s == "" then [""]
    else if s[0] == '.' then [""] + Labels(s[1..])
    else
      var rest := Labels(s[1..]);
      [[s[0]] + rest[0]] + rest[1..]
  }

  /** Splitting commutes with joining at a dot. */
  lemma {:induction false} LabelsJoin(a: string, b: string)
    ensures Labels(a + "." + b) == Labels(a) + Labels(b)
  {
    if a == "" {
      assert a + "." + b == "." + b;
      assert ("." + b)[1..] == b;
    } else {
      assert (a + "." + b)[1..] == a[1..] + "." + b;
      assert (a + "." + b)[0] == a[0];
      LabelsJoin(a[1..], b);
    }
  }

  function Join(ls: seq<string>): string
    requires |ls| >= 1
  {
    if |ls| == 1 then ls[0] else ls[0] + ("." + Join(ls[1..]))
  }

  lemma Assoc(a: string, b: string, c: string)
    ensures (a + b) + c == a + (b + c)
  {
  }

  /** Putting a character in front of the first label puts it in front of the name. */
  lemma JoinCons(ch: char, ls: seq<string>)
    requires |ls| >= 1
    ensures Join([[ch] + ls[0]] + ls[1..]) == [ch] + Join(ls)
  {
    var first := [ch] + ls[0];
    assert ([first] + ls[1..])[1..] == ls[1..];
    if |ls| > 1 {
      Assoc([ch], ls[0], "." + Join(ls[1..]));
    }
  }

  lemma {:induction false} JoinLabels(s: string)
    ensures Join(Labels(s)) == s
  {
    if s != "" {
      var rest := Labels(s[1..]);
      JoinLabels(s[1..]);
      if s[0] == '.' {
        assert ([""] + rest)[1..] == rest;
        assert Labels(s) == [""] + rest;
        assert "" + ("." + s[1..]) == s;
      } else {
        JoinCons(s[0], rest);
        assert [s[0]] + s[1..] == s;
      }
    }
  }

  lemma {:induction false} JoinAppend(a: seq<string>, b: seq<string>)
    requires |a| >= 1 && |b| >= 1
    ensures Join(a + b) == Join(a) + ("." + Join(b))
  {
    if |a| == 1 {
      assert (a + b)[1..] == b;
    } else {
      var tail := "." + Join(b);
      assert (a + b)[1..] == a[1..] + b;
      JoinAppend(a[1..], b);
      Assoc(".", Join(a[1..]), tail);
      Assoc(a[0], "." + Join(a[1..]), tail);
    }
  }

  /** The labels that a subdomain adds in front: some, and not just one empty one. */
  ghost predicate AddsLabels(suffix: string, host: string) {
    exists front: seq<string> ::
      |front| >= 1 && front != [""] && Labels(host) == front + Labels(suffix) && Labels(Join(front)) == front
  }

  lemma SubdomainAddsLabels(suffix: string, host: string)
    requires ProperSubdomain(suffix, host)
    ensures AddsLabels(suffix, host)
  {
    var cut := |host| - |suffix|;
    var front := host[..cut - 1];
    assert host[..cut] == front + ".";
    assert host == host[..cut] + host[cut..];
    LabelsJoin(front, suffix);
    JoinLabels(front);
  }

  lemma LabelsAddSubdomain(suffix: string, host: string)
    requires AddsLabels(suffix, host)
    ensures ProperSubdomain(suffix, host)
  {
    var front: seq<string> :|
      |front| >= 1 && front != [""] && Labels(host) == front + Labels(suffix) && Labels(Join(front)) == front;
    JoinLabels(host);
    JoinLabels(suffix);
    JoinAppend(front, Labels(suffix));
    Assoc(Join(front), ".", suffix);
    SplitAtDot(Join(front), suffix);
    assert Join(front) != "";
  }

  lemma SplitAtDot(front: string, suffix: string)
    requires front != ""
    ensures ProperSubdomain(suffix, front + "." + suffix)
  {
    var host := front + "." + suffix;
    assert host[..|host| - |suffix|] == front + ".";
  }

  /**
   * A wildcard matches exactly the hosts whose label list extends the suffix's label list on
   * the left by at least one label, other than a single empty one.
   */
  lemma WildcardMeaning(suffix: string, host: string)
    ensures ProperSubdomain(suffix, host) <==> AddsLabels(suffix, host)
  {
    if ProperSubdomain(suffix, host) {
      SubdomainAddsLabels(suffix, host);
    }
    if AddsLabels(suffix, host) {
      LabelsAddSubdomain(suffix, host);
    }
  }
}
