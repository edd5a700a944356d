/** Issues, their similarity, and the connected components it induces. */
module IssueLinks {

  /** An issue with the token set of its title. */
  datatype Issue = Issue(number: int, kind: string, tokens: set<string>)

  const DUPLICATE_SIMILARITY := 0.3

  /** Jaccard similarity of two non-empty token sets, at least the threshold. */
  predicate Similar(a: Issue, b: Issue) {
    && a.tokens != {} && b.tokens != {}
    && |a.tokens * b.tokens| as real >= DUPLICATE_SIMILARITY * |a.tokens + b.tokens| as real
  }

  lemma SimilarSymmetric(a: Issue, b: Issue)
    ensures Similar(a, b) == Similar(b, a)
  {
    assert a.tokens * b.tokens == b.tokens * a.tokens;
    assert a.tokens + b.tokens == b.tokens + a.tokens;
  }

  /** A chain of members, each similar to the next. */
  ghost predicate Chain(members: seq<Issue>, p: seq<Issue>) {
    && |p| > 0
    && (forall k :: 0 <= k < |p| ==> p[k] in members)
    && (forall k :: 0 <= k < |p| - 1 ==> Similar(p[k], p[k + 1]))
  }

  ghost predicate Linked(members: seq<Issue>, a: Issue, b: Issue) {
    exists p :: Chain(members, p) && p[0] == a && p[|p| - 1] == b
  }

  lemma LinkedSelf(members: seq<Issue>, a: Issue)
    requires a in members
    ensures Linked(members, a, a)
  {
    assert Chain(members, [a]);
  }

  lemma LinkedStep(members: seq<Issue>, a: Issue, b: Issue)
    requires a in members && b in members && Similar(a, b)
    ensures Linked(members, a, b) && Linked(members, b, a)
  {
    SimilarSymmetric(a, b);
    assert Chain(members, [a, b]) && Chain(members, [b, a]);
  }

  lemma LinkedOn(members: seq<Issue>, a: Issue, b: Issue, c: Issue)
    requires Linked(members, a, b) && Linked(members, b, c)
    ensures Linked(members, a, c)
  {
    var p :| Chain(members, p) && p[0] == a && p[|p| - 1] == b;
    var q :| Chain(members, q) && q[0] == b && q[|q| - 1] == c;
    var r := p + q[1..];
    forall k | 0 <= k < |r| - 1 ensures Similar(r[k], r[k + 1]) {
      if k < |p| - 1 {
        assert r[k] == p[k] && r[k + 1] == p[k + 1];
      } else {
        assert r[k] == q[k - |p| + 1] && r[k + 1] == q[k - |p| + 2];
      }
    }
    assert Chain(members, r) && r[0] == a && r[|r| - 1] == c;
  }

  /** The issues of s that are linked to a, in the order of s. */
  ghost function LinkedTo(members: seq<Issue>, s: seq<Issue>, a: Issue): (r: seq<Issue>)
    ensures forall x :: x in r <==> x in s && Linked(members, a, x)
  {
    if s == [] then []
    else
      var last := s[|s| - 1];
      var rest := LinkedTo(members, s[..|s| - 1], a);
      assert s == s[..|s| - 1] + [last];
      if Linked(members, a, last) then rest + [last] else rest
  }

  function Members(issues: seq<Issue>, kind: string): (r: seq<Issue>)
    ensures forall x :: x in r <==> x in issues && x.kind == kind
  {
    if issues == [] then []
    else
      var last := issues[|issues| - 1];
      var rest := Members(issues[..|issues| - 1], kind);
      assert issues == issues[..|issues| - 1] + [last];
      if last.kind == kind then rest + [last] else rest
  }

  /** Issue numbers identify issues. */
  ghost predicate Numbered(issues: seq<Issue>) {
    forall i, j :: 0 <= i < j < |issues| ==> issues[i].number != issues[j].number
  }

  lemma {:induction false} MembersNumbered(issues: seq<Issue>, kind: string)
    requires Numbered(issues)
    ensures Numbered(Members(issues, kind))
  {
    if issues != [] {
      var last := issues[|issues| - 1];
      var front := issues[..|issues| - 1];
      MembersNumbered(front, kind);
      forall x | x in Members(front, kind) ensures x.number != last.number {
        var k :| 0 <= k < |front| && front[k] == x;
      }
    }
  }

  /** The connected component of a among the issues of its kind, in input order. */
  ghost function Component(issues: seq<Issue>, a: Issue): seq<Issue> {
    var members := Members(issues, a.kind);
    LinkedTo(members, members, a)
  }

  lemma LinkedBack(members: seq<Issue>, a: Issue, b: Issue)
    requires Linked(members, a, b)
    ensures Linked(members, b, a)
  {
    var p :| Chain(members, p) && p[0] == a && p[|p| - 1] == b;
    var r := seq(|p|, k requires 0 <= k < |p| => p[|p| - 1 - k]);
    forall k | 0 <= k < |r| - 1 ensures Similar(r[k], r[k + 1]) {
      SimilarSymmetric(p[|p| - 2 - k], p[|p| - 2 - k + 1]);
    }
    assert Chain(members, r) && r[0] == b && r[|r| - 1] == a;
  }

  /** Linked issues have the same component. */
  lemma {:induction false} LinkedToSame(members: seq<Issue>, s: seq<Issue>, a: Issue, b: Issue)
    requires Linked(members, a, b)
    ensures LinkedTo(members, s, a) == LinkedTo(members, s, b)
  {
    if s != [] {
      var last := s[|s| - 1];
      LinkedToSame(members, s[..|s| - 1], a, b);
      LinkedBack(members, a, b);
      if Linked(members, a, last) {
        LinkedOn(members, b, a, last);
      } else if Linked(members, b, last) {
        LinkedOn(members, a, b, last);
      }
    }
  }

  /** A list of groups that has exactly the components of size two or more, each once. */
  ghost predicate AreComponents(members: seq<Issue>, clusters: seq<seq<Issue>>) {
    && (forall c :: c in clusters ==> IsCluster(members, c))
    && (forall a :: a in members && |LinkedTo(members, members, a)| >= 2 ==> LinkedTo(members, members, a) in clusters)
    && (forall i, j :: 0 <= i < j < |clusters| ==> clusters[i] != clusters[j])
  }

  ghost predicate IsCluster(members: seq<Issue>, c: seq<Issue>) {
    |c| >= 2 && c == LinkedTo(members, members, c[0])
  }

  /** The sort key of a group; the groups of the report are not empty. */
  function MinNumber(c: seq<Issue>): (m: int)
    ensures c != [] ==> exists x :: x in c && x.number == m
    ensures forall x :: x in c ==> m <= x.number
  {
    if c == [] then 0
    else if |c| == 1 then
      assert c[0] in c;
      c[0].number
    else
      assert c == [c[0]] + c[1..];
      var rest := MinNumber(c[1..]);
      if c[0].number <= rest then c[0].number else rest
  }

  /** An issue with any words is similar to itself; without a word in common two are not; and a
      share of exactly three tenths is enough. */
  lemma SimilarAtTheEdge(a: Issue, b: Issue)
    ensures a.tokens != {} ==> Similar(a, a)
    ensures a.tokens * b.tokens == {} ==> !Similar(a, b)
    ensures |a.tokens * b.tokens| == 3 && |a.tokens + b.tokens| == 10 ==> Similar(a, b)
    ensures |a.tokens * b.tokens| == 2 && |a.tokens + b.tokens| == 7 ==> !Similar(a, b)
  {
    assert a.tokens * a.tokens == a.tokens && a.tokens + a.tokens == a.tokens;
    if a.tokens != {} {
      var x :| x in a.tokens;
      assert x in a.tokens + b.tokens;
    }
    if a.tokens * b.tokens != {} {
      var x :| x in a.tokens * b.tokens;
      assert a.tokens != {} && b.tokens != {};
    }
  }
}
