/** The union-find with path halving behind the duplicate report, and the proof
    that its groups are the connected components of the similarity relation. */
module DuplicateClusters {
  import opened IssueLinks

  type Nodes = map<int, int>

  function Identity(nodes: set<int>): Nodes { map x | x in nodes :: x }

  ghost predicate NodeFits(parent: Nodes, root: Nodes, depth: map<int, nat>, x: int)
    requires parent.Keys == root.Keys == depth.Keys && x in parent
  {
    && parent[x] in parent && root[x] in parent
    && root[parent[x]] == root[x]
    && parent[root[x]] == root[x]
    && (parent[x] == x ==> root[x] == x)
    && (parent[x] != x ==> depth[parent[x]] < depth[x])
  }

  /** Every node leads to its root along nodes of decreasing depth. */
  ghost predicate Fits(parent: Nodes, root: Nodes, depth: map<int, nat>) {
    && parent.Keys == root.Keys == depth.Keys
    && forall x {:trigger NodeFits(parent, root, depth, x)} :: x in parent ==> NodeFits(parent, root, depth, x)
  }

  lemma HalvingFits(parent: Nodes, root: Nodes, depth: map<int, nat>, x: int)
    requires Fits(parent, root, depth) && x in parent && parent[x] != x
    ensures parent[x] in parent && Fits(parent[x := parent[parent[x]]], root, depth)
    ensures parent[parent[x]] in parent && depth[parent[parent[x]]] < depth[x]
    ensures root[parent[parent[x]]] == root[x]
  {
    assert NodeFits(parent, root, depth, x);
    assert NodeFits(parent, root, depth, parent[x]);
    var halved := parent[x := parent[parent[x]]];
    forall y | y in halved ensures NodeFits(halved, root, depth, y) {
      assert NodeFits(parent, root, depth, y);
      assert NodeFits(parent, root, depth, root[y]);
    }
  }

  ghost function MergedRoot(root: Nodes, a: int, b: int): (r: Nodes)
    requires a in root && b in root
    ensures r.Keys == root.Keys
  {
    map x | x in root :: if root[x] == root[a] then root[b] else root[x]
  }

  /** Nodes that get a new root end up below all of its depth. */
  ghost function MergedDepth(root: Nodes, depth: map<int, nat>, a: int, below: nat): (r: map<int, nat>)
    requires a in root && root.Keys == depth.Keys
    ensures r.Keys == root.Keys
  {
    map x | x in root :: if root[x] == root[a] then depth[x] + below else depth[x]
  }

  lemma MergeFits(parent: Nodes, root: Nodes, depth: map<int, nat>, a: int, b: int)
    requires Fits(parent, root, depth) && a in parent && b in parent
    requires parent[a] == a && parent[b] == b && a != b
    ensures Fits(parent[a := b], MergedRoot(root, a, b), MergedDepth(root, depth, a, depth[b] + 1))
  {
    assert NodeFits(parent, root, depth, a) && NodeFits(parent, root, depth, b);
    var p, r, d := parent[a := b], MergedRoot(root, a, b), MergedDepth(root, depth, a, depth[b] + 1);
    forall x | x in p ensures NodeFits(p, r, d, x) {
      assert NodeFits(parent, root, depth, x);
      assert NodeFits(parent, root, depth, parent[x]);
    }
  }

  /** The parent dictionary, with the root of every node and a depth that grows
      away from it as ghost state. */
  class Forest {
    var parent: Nodes
    ghost var root: Nodes
    ghost var depth: map<int, nat>

    ghost predicate Valid()
      reads this
    {
      Fits(parent, root, depth)
    }

    constructor (nodes: set<int>)
      ensures Valid() && root == Identity(nodes)
    {
      parent := Identity(nodes);
      root := Identity(nodes);
      depth := map x | x in nodes :: 0;
    }

    /** Terminates, and shortens paths without moving any node to another root. */
    method Find(start: int) returns (node: int)
      requires Valid() && start in parent
      modifies this`parent
      ensures Valid() && parent.Keys == old(parent.Keys)
      ensures node in parent && node == root[start] && parent[node] == node
    {
      node := start;
      while parent[node] != node
        invariant Valid() && parent.Keys == old(parent.Keys)
        invariant node in parent && root[node] == root[start]
        decreases depth[node]
      {
        HalvingFits(parent, root, depth, node);
        parent := parent[node := parent[parent[node]]];
        node := parent[node];
      }
      assert NodeFits(parent, root, depth, node);
    }

    /** Hangs the tree of a below the tree of b: the two groups become one. */
    method Union(a: int, b: int)
      requires Valid() && a in parent && b in parent
      modifies this
      ensures Valid() && root == MergedRoot(old(root), a, b)
    {
      var rb := Find(b);
      var ra := Find(a);
      assert NodeFits(parent, root, depth, a) && NodeFits(parent, root, depth, b);
      assert NodeFits(parent, root, depth, ra) && NodeFits(parent, root, depth, rb);
      if ra == rb {
        assert parent[ra := rb] == parent && root == MergedRoot(root, a, b);
      } else {
        MergeFits(parent, root, depth, ra, rb);
        assert MergedRoot(root, a, b) == MergedRoot(root, ra, rb);
      }
      parent := parent[ra := rb];
      if ra != rb {
        depth := MergedDepth(root, depth, ra, depth[rb] + 1);
        root := MergedRoot(root, ra, rb);
      }
    }
  }

  /** Nodes with one root are linked by a chain of similar issues. */
  ghost predicate RootsLink(members: seq<Issue>, root: Nodes) {
    && (forall x :: x in members ==> x.number in root)
    && forall x, y :: x in members && y in members && root[x.number] == root[y.number] ==> Linked(members, x, y)
  }

  /** All similar pairs (i, j) with i < j scanned so far have one root. */
  ghost predicate PairsJoined(members: seq<Issue>, root: Nodes, i: nat, j: nat) {
    && (forall x :: x in members ==> x.number in root)
    && forall k, l :: 0 <= k < l < |members| && (k < i || (k == i && l < j)) && Similar(members[k], members[l]) ==>
      root[members[k].number] == root[members[l].number]
  }

  /** Joining the groups of two similar issues. */
  lemma MergeLinks(members: seq<Issue>, before: Nodes, a: Issue, b: Issue)
    requires RootsLink(members, before) && a in members && b in members && Similar(a, b)
    ensures RootsLink(members, MergedRoot(before, a.number, b.number))
  {
    var after := MergedRoot(before, a.number, b.number);
    LinkedStep(members, a, b);
    forall x, y | x in members && y in members && after[x.number] == after[y.number]
      ensures Linked(members, x, y)
    {
      var xa, ya := before[x.number] == before[a.number], before[y.number] == before[a.number];
      if xa == ya {
        assert before[x.number] == before[y.number];
      } else if xa {
        LinkedOn(members, x, a, b);
        LinkedOn(members, x, b, y);
      } else {
        LinkedOn(members, x, b, a);
        LinkedOn(members, x, a, y);
      }
    }
  }

  lemma MergeKeepsPairs(members: seq<Issue>, before: Nodes, a: Issue, b: Issue, i: nat, j: nat)
    requires PairsJoined(members, before, i, j) && i < j < |members| && members[i] == a && members[j] == b
    ensures PairsJoined(members, MergedRoot(before, a.number, b.number), i, j + 1)
  {
  }

  lemma {:induction false} ChainHasOneRoot(members: seq<Issue>, root: Nodes, p: seq<Issue>)
    requires PairsJoined(members, root, |members|, 0) && Chain(members, p)
    ensures root[p[0].number] == root[p[|p| - 1].number]
  {
    if |p| > 1 {
      ChainHasOneRoot(members, root, p[1..]);
      var k :| 0 <= k < |members| && members[k] == p[0];
      var l :| 0 <= l < |members| && members[l] == p[1];
      SimilarSymmetric(p[0], p[1]);
    }
  }

  /** After the scan two issues have one root exactly when they are linked. */
  lemma RootsAreComponents(members: seq<Issue>, root: Nodes, a: Issue, b: Issue)
    requires RootsLink(members, root) && PairsJoined(members, root, |members|, 0)
    requires a in members && b in members
    ensures root[a.number] == root[b.number] <==> Linked(members, a, b)
  {
    if Linked(members, a, b) {
      var p :| Chain(members, p) && p[0] == a && p[|p| - 1] == b;
      ChainHasOneRoot(members, root, p);
    }
  }

  lemma SkipKeepsPairs(members: seq<Issue>, root: Nodes, i: nat, j: nat)
    requires PairsJoined(members, root, i, j) && i < |members|
    ensures i < j < |members| && !Similar(members[i], members[j]) ==> PairsJoined(members, root, i, j + 1)
    ensures members[i].tokens == {} || j == |members| ==> PairsJoined(members, root, i + 1, 0)
    ensures j <= i ==> PairsJoined(members, root, i, i + 1)
  {
  }

  ghost predicate Scanned(members: seq<Issue>, root: Nodes, i: nat, j: nat) {
    RootsLink(members, root) && PairsJoined(members, root, i, j)
  }

  /** The inner step of the scan, for one pair. */
  method JoinIfSimilar(forest: Forest, members: seq<Issue>, i: nat, j: nat)
    requires forest.Valid() && i < j < |members| && members[i].tokens != {}
    requires Scanned(members, forest.root, i, j)
    modifies forest
    ensures forest.Valid() && Scanned(members, forest.root, i, j + 1)
  {
    var left, right := members[i], members[j];
    SkipKeepsPairs(members, forest.root, i, j);
    if right.tokens == {} {
      return;
    }
    var union := |left.tokens + right.tokens|;
    if |left.tokens * right.tokens| as real >= DUPLICATE_SIMILARITY * union as real {
      assert left in members && right in members;
      MergeLinks(members, forest.root, left, right);
      MergeKeepsPairs(members, forest.root, left, right, i, j);
      forest.Union(left.number, right.number);
    }
  }

  /** The scan of all pairs. */
  method LinkMembers(members: seq<Issue>) returns (forest: Forest)
    requires Numbered(members)
    ensures fresh(forest) && forest.Valid() && Scanned(members, forest.root, |members|, 0)
  {
    forest := new Forest(set x | x in members :: x.number);
    InitialRootsLink(members, forest.root);
    var i := 0;
    while i < |members|
      invariant i <= |members| && forest.Valid() && Scanned(members, forest.root, i, 0)
    {
      SkipKeepsPairs(members, forest.root, i, 0);
      if members[i].tokens != {} {
        var j := i + 1;
        while j < |members|
          invariant i < j <= |members| && forest.Valid() && Scanned(members, forest.root, i, j)
        {
          JoinIfSimilar(forest, members, i, j);
          j := j + 1;
        }
        SkipKeepsPairs(members, forest.root, i, j);
      }
      i := i + 1;
    }
  }

  lemma InitialRootsLink(members: seq<Issue>, root: Nodes)
    requires Numbered(members)
    requires root == Identity(set m | m in members :: m.number)
    ensures Scanned(members, root, 0, 0)
  {
    forall x, y | x in members && y in members && root[x.number] == root[y.number]
      ensures Linked(members, x, y)
    {
      var k :| 0 <= k < |members| && members[k] == x;
      var l :| 0 <= l < |members| && members[l] == y;
      LinkedSelf(members, x);
    }
  }

  // ----- groups -----

  /** The issues of s whose root is r, in the order of s. */
  ghost function WithRoot(s: seq<Issue>, root: Nodes, r: int): (g: seq<Issue>)
    requires forall x :: x in s ==> x.number in root
    ensures forall x :: x in g <==> x in s && root[x.number] == r
  {
    if s == [] then []
    else
      var last := s[|s| - 1];
      assert s == s[..|s| - 1] + [last];
      var rest := WithRoot(s[..|s| - 1], root, r);
      if root[last.number] == r then rest + [last] else rest
  }

  /** After the scan, the issues that share the root of a are those linked to a. */
  lemma {:induction false} WithRootIsLinkedTo(members: seq<Issue>, s: seq<Issue>, root: Nodes, a: Issue)
    requires Scanned(members, root, |members|, 0) && a in members
    requires forall x :: x in s ==> x in members
    ensures WithRoot(s, root, root[a.number]) == LinkedTo(members, s, a)
  {
    if s != [] {
      var last := s[|s| - 1];
      assert last in s;
      WithRootIsLinkedTo(members, s[..|s| - 1], root, a);
      RootsAreComponents(members, root, a, last);
    }
  }

  /** The dictionary of groups by root; its keys are in the order of first insertion. */
  ghost predicate Groups(s: seq<Issue>, root: Nodes, keys: seq<int>, table: map<int, seq<Issue>>) {
    && (forall x :: x in s ==> x.number in root && root[x.number] in table)
    && (forall r :: r in table <==> r in keys)
    && (forall i, j :: 0 <= i < j < |keys| ==> keys[i] != keys[j])
    && (forall r :: r in table ==> table[r] != [] && table[r] == WithRoot(s, root, r))
  }

  lemma GroupsNext(s: seq<Issue>, root: Nodes, keys: seq<int>, table: map<int, seq<Issue>>, x: Issue)
    requires Groups(s, root, keys, table) && x.number in root
    ensures var r := root[x.number];
      Groups(s + [x], root, if r in table then keys else keys + [r],
             table[r := (if r in table then table[r] else []) + [x]])
  {
    var t, r := s + [x], root[x.number];
    assert t[..|t| - 1] == s;
    var g := WithRoot(s, root, r);
    assert g == [] || g[0] in g;
  }

  method GroupByRoot(members: seq<Issue>, forest: Forest) returns (keys: seq<int>, table: map<int, seq<Issue>>)
    requires forest.Valid() && RootsLink(members, forest.root)
    modifies forest`parent
    ensures Groups(members, forest.root, keys, table)
  {
    keys, table := [], map[];
    var k := 0;
    while k < |members|
      invariant k <= |members| && forest.Valid()
      invariant Groups(members[..k], forest.root, keys, table)
    {
      var issue := members[k];
      assert issue in members && members[..k + 1] == members[..k] + [issue];
      GroupsNext(members[..k], forest.root, keys, table, issue);
      var r := forest.Find(issue.number);
      if r !in table {
        keys := keys + [r];
        table := table[r := []];
      }
      table := table[r := table[r] + [issue]];
      k := k + 1;
    }
    assert members[..k] == members;
  }

  /** Groups are components; those of size two or more are the clusters of their kind. */
  lemma GroupIsComponent(members: seq<Issue>, root: Nodes, keys: seq<int>, table: map<int, seq<Issue>>, r: int)
    requires Scanned(members, root, |members|, 0) && Groups(members, root, keys, table) && r in table
    ensures table[r] == LinkedTo(members, members, table[r][0])
    ensures root[table[r][0].number] == r
  {
    var a := table[r][0];
    assert a in table[r];
    WithRootIsLinkedTo(members, members, root, a);
  }

  /** The groups of two or more among these roots, each once. */
  ghost predicate Picked(keys: seq<int>, table: map<int, seq<Issue>>, from: seq<int>, clusters: seq<seq<Issue>>) {
    && |from| == |clusters|
    && (forall i :: 0 <= i < |from| ==> from[i] in keys && from[i] in table && clusters[i] == table[from[i]])
    && (forall i :: 0 <= i < |clusters| ==> |clusters[i]| >= 2)
    && (forall i, j :: 0 <= i < j < |from| ==> from[i] != from[j])
    && (forall r :: r in keys && r in table && |table[r]| >= 2 ==> table[r] in clusters)
  }

  lemma PickOne(keys: seq<int>, k: nat, table: map<int, seq<Issue>>, from: seq<int>, clusters: seq<seq<Issue>>)
    requires k < |keys| && keys[k] in table && Picked(keys[..k], table, from, clusters)
    requires forall i, j :: 0 <= i < j < |keys| ==> keys[i] != keys[j]
    ensures var r := keys[k];
      if |table[r]| >= 2 then Picked(keys[..k + 1], table, from + [r], clusters + [table[r]])
      else Picked(keys[..k + 1], table, from, clusters)
  {
    assert keys[..k + 1] == keys[..k] + [keys[k]];
    assert keys[k] !in keys[..k];
  }

  /** The groups of two or more, one for each root, are the components of that size. */
  lemma BigGroupsAreComponents(
      members: seq<Issue>, root: Nodes, keys: seq<int>, table: map<int, seq<Issue>>, from: seq<int>,
      clusters: seq<seq<Issue>>)
    requires Scanned(members, root, |members|, 0) && Groups(members, root, keys, table) && |from| == |clusters|
    requires forall i :: 0 <= i < |from| ==> from[i] in table && clusters[i] == table[from[i]] && |clusters[i]| >= 2
    requires forall i, j :: 0 <= i < j < |from| ==> from[i] != from[j]
    requires forall r :: r in table && |table[r]| >= 2 ==> table[r] in clusters
    ensures AreComponents(members, clusters)
  {
    forall i, j | 0 <= i < j < |clusters| ensures clusters[i] != clusters[j] {
      GroupIsComponent(members, root, keys, table, from[i]);
      GroupIsComponent(members, root, keys, table, from[j]);
    }
    forall c | c in clusters ensures IsCluster(members, c) {
      var i :| 0 <= i < |clusters| && clusters[i] == c;
      GroupIsComponent(members, root, keys, table, from[i]);
    }
    forall a | a in members && |LinkedTo(members, members, a)| >= 2
      ensures LinkedTo(members, members, a) in clusters
    {
      WithRootIsLinkedTo(members, members, root, a);
    }
  }

  method ClustersOfKind(members: seq<Issue>) returns (clusters: seq<seq<Issue>>)
    requires Numbered(members)
    ensures AreComponents(members, clusters)
  {
    var forest := LinkMembers(members);
    var keys, table := GroupByRoot(members, forest);
    ghost var root := forest.root;
    clusters := [];
    ghost var from: seq<int> := [];
    var k := 0;
    while k < |keys|
      invariant k <= |keys| && Picked(keys[..k], table, from, clusters)
      invariant forall r :: r in keys <==> r in table
    {
      PickOne(keys, k, table, from, clusters);
      if |table[keys[k]]| >= 2 {
        clusters := clusters + [table[keys[k]]];
        from := from + [keys[k]];
      }
      k := k + 1;
    }
    assert keys[..k] == keys;
    assert forall r :: r in table && |table[r]| >= 2 ==> table[r] in clusters;
    BigGroupsAreComponents(members, root, keys, table, from, clusters);
  }

  // ----- the report -----

  ghost predicate SortedByMin(clusters: seq<seq<Issue>>) {
    forall i, j :: 0 <= i < j < |clusters| ==> MinNumber(clusters[i]) < MinNumber(clusters[j])
  }

  ghost predicate DistinctMins(clusters: seq<seq<Issue>>) {
    forall i, j :: 0 <= i < j < |clusters| ==> MinNumber(clusters[i]) != MinNumber(clusters[j])
  }

  lemma SortedCons(c: seq<Issue>, rest: seq<seq<Issue>>)
    requires SortedByMin(rest)
    ensures (forall d :: d in rest ==> MinNumber(c) < MinNumber(d)) ==> SortedByMin([c] + rest)
  {
  }

  /** Only the set of elements matters to the callers, because the keys are distinct. */
  function InsertByMin(c: seq<Issue>, sorted: seq<seq<Issue>>): (r: seq<seq<Issue>>)
    requires SortedByMin(sorted) && forall d :: d in sorted ==> MinNumber(d) != MinNumber(c)
    ensures SortedByMin(r) && forall d :: d in r <==> d in sorted || d == c
  {
    if sorted == [] then [c]
    else
      assert sorted == [sorted[0]] + sorted[1..];
      if MinNumber(c) < MinNumber(sorted[0]) then
        SortedCons(c, sorted);
        [c] + sorted
      else
        var rest := InsertByMin(c, sorted[1..]);
        SortedCons(sorted[0], rest);
        [sorted[0]] + rest
  }

  function SortByMin(clusters: seq<seq<Issue>>): (r: seq<seq<Issue>>)
    requires DistinctMins(clusters)
    ensures SortedByMin(r) && forall d :: d in r <==> d in clusters
  {
    if clusters == [] then []
    else
      var front, last := clusters[..|clusters| - 1], clusters[|clusters| - 1];
      assert clusters == front + [last];
      assert forall d :: d in front ==> MinNumber(d) != MinNumber(last);
      InsertByMin(last, SortByMin(front))
  }

  predicate Reported(kind: string) { kind == "bug" || kind == "feature" }

  /** Bugs and feature requests are reported, and nothing else. */
  lemma ReportedKinds(kind: string)
    ensures Reported("bug") && Reported("feature") && (Reported(kind) ==> kind in {"bug", "feature"})
  {
  }

  /** The clusters of one kind are components of all issues. */
  ghost predicate ReportCluster(issues: seq<Issue>, c: seq<Issue>) {
    && |c| >= 2 && c[0] in issues && Reported(c[0].kind)
    && c == Component(issues, c[0])
  }

  lemma SameMinSameCluster(issues: seq<Issue>, c: seq<Issue>, d: seq<Issue>)
    requires Numbered(issues) && ReportCluster(issues, c) && ReportCluster(issues, d)
    requires MinNumber(c) == MinNumber(d)
    ensures c == d
  {
    var x :| x in c && x.number == MinNumber(c);
    var y :| y in d && y.number == MinNumber(d);
    assert x in Members(issues, c[0].kind) && y in Members(issues, d[0].kind);
    var i :| 0 <= i < |issues| && issues[i] == x;
    var j :| 0 <= j < |issues| && issues[j] == y;
    assert x == y;
    var members := Members(issues, c[0].kind);
    LinkedToSame(members, members, c[0], x);
    LinkedToSame(members, members, d[0], x);
  }

  lemma KindClustersReported(issues: seq<Issue>, kind: string, clusters: seq<seq<Issue>>)
    requires Reported(kind) && AreComponents(Members(issues, kind), clusters)
    ensures forall c: seq<Issue> :: c in clusters ==> ReportCluster(issues, c) && c[0].kind == kind
  {
    forall c: seq<Issue> | c in clusters ensures ReportCluster(issues, c) && c[0].kind == kind {
      assert IsCluster(Members(issues, kind), c);
      assert c[0] in c;
    }
  }

  /** The duplicate report: the connected components of size two or more among the bugs
      and among the features, each once and in input order, by their smallest number. */
  method Clusters(issues: seq<Issue>) returns (clusters: seq<seq<Issue>>)
    requires Numbered(issues)
    ensures forall c :: c in clusters ==> ReportCluster(issues, c)
    ensures forall a :: a in issues && Reported(a.kind) && |Component(issues, a)| >= 2 ==>
      Component(issues, a) in clusters
    ensures SortedByMin(clusters)
  {
    MembersNumbered(issues, "bug");
    MembersNumbered(issues, "feature");
    var bugs := ClustersOfKind(Members(issues, "bug"));
    var features := ClustersOfKind(Members(issues, "feature"));
    KindClustersReported(issues, "bug", bugs);
    KindClustersReported(issues, "feature", features);
    var all := bugs + features;
    assert DistinctMins(all) by {
      forall i, j | 0 <= i < j < |all| ensures MinNumber(all[i]) != MinNumber(all[j]) {
        assert all[i] != all[j] by {
          if i < |bugs| <= j {
            assert all[i] in bugs && all[j] in features;
          }
        }
        assert all[i] in all && all[j] in all;
        if MinNumber(all[i]) == MinNumber(all[j]) {
          SameMinSameCluster(issues, all[i], all[j]);
        }
      }
    }
    clusters := SortByMin(all);
  }
}
