/** When rendering ends: exactly when no proxy that can be reached shows itself, directly or
    through other proxies. */
module RenderTermination {
  import opened Options
  import opened RenderNode
  import opened RenderPaths
  import opened RenderMeaning

  // ----- chains of proxies -----

  /** Each proxy shows the next one. */
  ghost predicate Chain(scene: Node, c: seq<Loc>) {
    forall i :: 0 < i < |c| ==> Shows(scene, c[i - 1], c[i])
  }

  /** Some reachable proxy shows itself through a chain. */
  ghost predicate Circular(scene: Node) {
    exists c :: Circle(scene, c)
  }

  ghost predicate Circle(scene: Node, c: seq<Loc>) {
    |c| >= 2 && Chain(scene, c) && Reachable(scene, c[0]) && c[|c| - 1] == c[0]
  }

  /** How deep calls can go is bounded. */
  ghost predicate Bounded(scene: Node) {
    exists bound: nat :: PathsWithin(scene, bound)
  }

  ghost predicate PathsWithin(scene: Node, bound: nat) {
    forall path :: PlaceOf(scene, path).Some? ==> |path| <= bound
  }

  lemma {:induction false} PlacesExist(scene: Node, path: Path)
    requires PlaceOf(scene, path).Some?
    ensures At(scene, PlaceOf(scene, path).value.loc).Some?
  {
    if path != [] {
      PlacesExist(scene, path[..|path| - 1]);
      var at, move := PlaceOf(scene, path[..|path| - 1]).value.loc, path[|path| - 1];
      if move.Child? {
        AtChild(scene, at, move.index);
      }
    }
  }

  lemma {:induction false} AtPrefix(scene: Node, loc: Loc, k: nat)
    requires k <= |loc| && At(scene, loc).Some?
    ensures At(scene, loc[..k]).Some?
  {
    if k < |loc| {
      var n := |loc| - 1;
      assert loc == loc[..n] + [loc[n]] && loc[..n][..k] == loc[..k];
      AtChild(scene, loc[..n], loc[n]);
      AtPrefix(scene, loc[..n], k);
    } else {
      assert loc[..k] == loc;
    }
  }

  // ----- a circle makes the calls endless -----

  /** A descent is a path of moves to children. */
  lemma {:induction false} DescentIsPath(scene: Node, path: Path, from: Loc, to: Loc) returns (longer: Path)
    requires LeadsTo(scene, path, from) && Descends(scene, from, to)
    ensures LeadsTo(scene, longer, to) && |longer| >= |path|
    decreases |to|
  {
    longer := path;
    if |from| < |to| {
      var n := |to| - 1;
      assert forall k :: 0 <= k <= n ==> to[..n][..k] == to[..k];
      assert Descends(scene, from, to[..n]);
      longer := DescentIsPath(scene, path, from, to[..n]);
      assert to == to[..n] + [to[n]];
      AtChild(scene, to[..n], to[n]);
      PlaceMore(scene, longer, Child(to[n]));
      longer := longer + [Child(to[n])];
    }
  }

  lemma ShowsIsPath(scene: Node, path: Path, p: Loc, q: Loc) returns (longer: Path)
    requires LeadsTo(scene, path, p) && Shows(scene, p, q)
    ensures LeadsTo(scene, longer, q) && |longer| > |path|
  {
    var source :| Follows(scene, p, source) && Descends(scene, source, q);
    PlaceMore(scene, path, Source);
    longer := DescentIsPath(scene, path + [Source], source, q);
  }

  lemma {:induction false} ChainIsPath(scene: Node, path: Path, c: seq<Loc>) returns (longer: Path)
    requires c != [] && Chain(scene, c) && LeadsTo(scene, path, c[0])
    ensures LeadsTo(scene, longer, c[|c| - 1]) && |longer| >= |path| + |c| - 1
    decreases |c|
  {
    longer := path;
    if |c| > 1 {
      assert c[..|c| - 1][|c| - 2] == c[|c| - 2];
      longer := ChainIsPath(scene, path, c[..|c| - 1]);
      longer := ShowsIsPath(scene, longer, c[|c| - 2], c[|c| - 1]);
    }
  }

  lemma {:induction false} CircleIsEndless(scene: Node, c: seq<Loc>, n: nat) returns (path: Path)
    requires Circle(scene, c)
    ensures LeadsTo(scene, path, c[0]) && |path| >= n
  {
    if n == 0 {
      path :| LeadsTo(scene, path, c[0]);
    } else {
      path := CircleIsEndless(scene, c, n - 1);
      path := ChainIsPath(scene, path, c);
    }
  }

  // ----- without a circle they end -----

  function Height(n: Node): nat { 1 + MaxHeight(n.kids) }

  function MaxHeight(kids: seq<Node>): nat {
    if kids == [] then 0
    else
      var first, rest := Height(kids[0]), MaxHeight(kids[1..]);
      if first > rest then first else rest
  }

  lemma {:induction false} KidIsLower(kids: seq<Node>, i: nat)
    requires i < |kids|
    ensures Height(kids[i]) <= MaxHeight(kids)
  {
    if i > 0 {
      KidIsLower(kids[1..], i - 1);
    }
  }

  lemma {:induction false} NotHigher(scene: Node, loc: Loc)
    requires At(scene, loc).Some?
    ensures Height(At(scene, loc).value) <= Height(scene)
  {
    if loc != [] {
      KidIsLower(scene.kids, loc[0]);
      NotHigher(scene.kids[loc[0]], loc[1..]);
    }
  }

  /** The proxies that a path follows to their sources, in order. */
  function Followed(scene: Node, path: Path): seq<Loc> {
    if path == [] then []
    else
      var front := path[..|path| - 1];
      Followed(scene, front)
      + if path[|path| - 1].Source? && PlaceOf(scene, front).Some? then [PlaceOf(scene, front).value.loc] else []
  }

  /** The last proxy followed leads to this node by moves to children; before any, the root does. */
  ghost predicate Under(scene: Node, followed: seq<Loc>, loc: Loc) {
    if followed == [] then Descends(scene, [], loc)
    else exists source :: Follows(scene, followed[|followed| - 1], source) && Descends(scene, source, loc)
  }

  lemma DescendsOneMore(scene: Node, from: Loc, at: Loc, i: nat)
    requires Descends(scene, from, at) && At(scene, at).value.kind == Drawn && At(scene, at + [i]).Some?
    ensures Descends(scene, from, at + [i])
  {
    forall k | |from| <= k < |at + [i]|
      ensures At(scene, (at + [i])[..k]).Some? && At(scene, (at + [i])[..k]).value.kind == Drawn
    {
      if k < |at| {
        assert (at + [i])[..k] == at[..k];
      } else {
        assert (at + [i])[..k] == at;
      }
    }
  }

  lemma FollowedOneMore(scene: Node, followed: seq<Loc>, at: Loc)
    requires Chain(scene, followed) && Under(scene, followed, at) && ProxyAt(scene, at)
    ensures Chain(scene, followed + [at])
  {
    if followed != [] {
      assert Shows(scene, followed[|followed| - 1], at);
    }
  }

  lemma {:induction false} PathFollowsChain(scene: Node, path: Path)
    requires PlaceOf(scene, path).Some?
    ensures Chain(scene, Followed(scene, path)) && Under(scene, Followed(scene, path), PlaceOf(scene, path).value.loc)
    ensures forall p :: p in Followed(scene, path) ==> Reachable(scene, p) && ProxyAt(scene, p)
  {
    PlacesExist(scene, path);
    if path != [] {
      var n := |path| - 1;
      PathFollowsChain(scene, path[..n]);
      var at, loc := PlaceOf(scene, path[..n]).value.loc, PlaceOf(scene, path).value.loc;
      PlacesExist(scene, path[..n]);
      var before := Followed(scene, path[..n]);
      if path[n].Child? {
        ChildIsUnder(scene, before, at, path[n].index);
      } else {
        FollowedOneMore(scene, before, at);
        assert Descends(scene, loc, loc);
        assert LeadsTo(scene, path[..n], at);
      }
    }
  }

  /** Between two sources a path is no longer than the tree is high. */
  lemma {:induction false} PathIsWithin(scene: Node, path: Path)
    requires PlaceOf(scene, path).Some? && At(scene, PlaceOf(scene, path).value.loc).Some?
    ensures |path| + Height(At(scene, PlaceOf(scene, path).value.loc).value)
      <= (|Followed(scene, path)| + 1) * Height(scene)
  {
    if path != [] {
      var n := |path| - 1;
      PlacesExist(scene, path[..n]);
      PathIsWithin(scene, path[..n]);
      var at, loc := PlaceOf(scene, path[..n]).value.loc, PlaceOf(scene, path).value.loc;
      if path[n].Child? {
        AtChild(scene, at, path[n].index);
        KidIsLower(At(scene, at).value.kids, path[n].index);
      } else {
        NotHigher(scene, loc);
        OneMoreHeight(|Followed(scene, path[..n])| + 1, Height(scene));
      }
    }
  }

  lemma MoreHeights(m: nat, n: nat, h: nat)
    requires m <= n
    ensures (m + 1) * h <= (n + 1) * h
  {
  }

  lemma OneMoreHeight(n: nat, h: nat)
    ensures (n + 1) * h == n * h + h
  {
  }

  lemma ChildIsUnder(scene: Node, followed: seq<Loc>, at: Loc, i: nat)
    requires Under(scene, followed, at) && At(scene, at + [i]).Some?
    requires At(scene, at).Some? && At(scene, at).value.kind == Drawn
    ensures Under(scene, followed, at + [i])
  {
    if followed == [] {
      DescendsOneMore(scene, [], at, i);
    } else {
      var source :| Follows(scene, followed[|followed| - 1], source) && Descends(scene, source, at);
      DescendsOneMore(scene, source, at, i);
    }
  }

  /** All places of nodes in the tree. */
  function Locs(n: Node): set<Loc> { {[]} + KidLocs(n.kids, |n.kids|) }

  function Below(i: nat, loc: Loc): Loc { [i] + loc }

  function AllBelow(i: nat, locs: set<Loc>): set<Loc> { set loc | loc in locs :: Below(i, loc) }

  function KidLocs(kids: seq<Node>, k: nat): set<Loc>
    requires k <= |kids|
  {
    if k == 0 then {} else KidLocs(kids, k - 1) + AllBelow(k - 1, Locs(kids[k - 1]))
  }

  lemma {:induction false} LocsHoldAll(n: Node, loc: Loc)
    requires At(n, loc).Some?
    ensures loc in Locs(n)
  {
    if loc != [] {
      LocsHoldAll(n.kids[loc[0]], loc[1..]);
      assert loc == [loc[0]] + loc[1..];
      KidLocsHoldAll(n.kids, |n.kids|, loc);
    }
  }

  lemma {:induction false} KidLocsHoldAll(kids: seq<Node>, k: nat, loc: Loc)
    requires loc != [] && loc[0] < k <= |kids| && loc[1..] in Locs(kids[loc[0]]) && loc == [loc[0]] + loc[1..]
    ensures loc in KidLocs(kids, k)
  {
    assert loc == Below(loc[0], loc[1..]);
    if loc[0] < k - 1 {
      KidLocsHoldAll(kids, k - 1, loc);
    }
  }

  ghost predicate NoneTwice(c: seq<Loc>) {
    forall i, j :: 0 <= i < j < |c| ==> c[i] != c[j]
  }

  lemma {:induction false} Pigeonhole(c: seq<Loc>, s: set<Loc>)
    requires NoneTwice(c) && forall p :: p in c ==> p in s
    ensures |c| <= |s|
  {
    if c != [] {
      var n := |c| - 1;
      Pigeonhole(c[..n], s - {c[n]});
    }
  }

  /** Without a circle, a chain of reachable proxies holds none of them twice. */
  lemma ChainsAreShort(scene: Node, c: seq<Loc>)
    requires !Circular(scene) && Chain(scene, c)
    requires forall p :: p in c ==> Reachable(scene, p) && ProxyAt(scene, p)
    ensures |c| <= |Locs(scene)|
  {
    forall i, j | 0 <= i < j < |c| ensures c[i] != c[j] {
      var part := c[i..j + 1];
      assert Chain(scene, part);
      assert c[i] in c && part[0] == c[i] && part[|part| - 1] == c[j];
      assert !Circle(scene, part);
    }
    forall p | p in c ensures p in Locs(scene) {
      LocsHoldAll(scene, p);
    }
    Pigeonhole(c, Locs(scene));
  }

  lemma CircleIsUnbounded(scene: Node, c: seq<Loc>, bound: nat)
    requires Circle(scene, c)
    ensures !PathsWithin(scene, bound)
  {
    var path := CircleIsEndless(scene, c, bound + 1);
    assert PlaceOf(scene, path).Some?;
  }

  lemma PathsAreWithin(scene: Node, path: Path)
    requires !Circular(scene) && PlaceOf(scene, path).Some?
    ensures |path| <= (|Locs(scene)| + 1) * Height(scene)
  {
    PlacesExist(scene, path);
    PathFollowsChain(scene, path);
    PathIsWithin(scene, path);
    var followed := |Followed(scene, path)|;
    ChainsAreShort(scene, Followed(scene, path));
    MoreHeights(followed, |Locs(scene)|, Height(scene));
  }

  /** The depth of the calls is bounded if and only if no proxy that can be reached shows
      itself, directly or through other proxies. */
  lemma BoundedExactly(scene: Node)
    ensures Bounded(scene) <==> !Circular(scene)
  {
    if Circular(scene) {
      var c :| Circle(scene, c);
      forall bound: nat ensures !PathsWithin(scene, bound) {
        CircleIsUnbounded(scene, c, bound);
      }
    } else {
      forall path | PlaceOf(scene, path).Some? ensures |path| <= (|Locs(scene)| + 1) * Height(scene) {
        PathsAreWithin(scene, path);
      }
      assert PathsWithin(scene, (|Locs(scene)| + 1) * Height(scene));
    }
  }

  // ----- the renderer's ranks -----

  /** A chain of n steps starts from the proxy. */
  ghost predicate CanGo(scene: Node, p: Loc, n: nat) {
    exists c :: |c| == n + 1 && c[0] == p && Chain(scene, c)
  }

  /** The largest number of steps, up to a limit, of a chain from the proxy. */
  ghost function Longest(scene: Node, p: Loc, limit: nat): (n: nat)
    ensures n <= limit && (n == 0 || CanGo(scene, p, n))
    ensures forall k: nat :: k <= limit && CanGo(scene, p, k) ==> k <= n
  {
    if limit == 0 || CanGo(scene, p, limit) then limit else Longest(scene, p, limit - 1)
  }

  lemma ReachableOn(scene: Node, p: Loc, q: Loc)
    requires Reachable(scene, p) && Shows(scene, p, q)
    ensures Reachable(scene, q) && ProxyAt(scene, q)
  {
    var path :| LeadsTo(scene, path, p);
    path := ShowsIsPath(scene, path, p, q);
  }

  lemma {:induction false} ChainIsReachable(scene: Node, c: seq<Loc>)
    requires c != [] && Chain(scene, c) && Reachable(scene, c[0]) && ProxyAt(scene, c[0])
    ensures forall p :: p in c ==> Reachable(scene, p) && ProxyAt(scene, p)
    decreases |c|
  {
    if |c| > 1 {
      ReachableOn(scene, c[0], c[1]);
      assert Chain(scene, c[1..]);
      ChainIsReachable(scene, c[1..]);
      assert c == [c[0]] + c[1..];
    }
  }

  /** Without a circle, the longest chains rank the proxies. */
  lemma LongestRanks(scene: Node, p: Loc, q: Loc)
    requires !Circular(scene) && Reachable(scene, p) && Shows(scene, p, q)
    ensures Longest(scene, q, |Locs(scene)|) < Longest(scene, p, |Locs(scene)|)
  {
    var k := Longest(scene, q, |Locs(scene)|);
    assert Chain(scene, [q]);
    assert CanGo(scene, q, 0);
    var c :| |c| == k + 1 && c[0] == q && Chain(scene, c);
    var longer := [p] + c;
    assert forall i :: 0 < i < |longer| ==> longer[i] == c[i - 1];
    assert Chain(scene, longer);
    assert ProxyAt(scene, p);
    ChainIsReachable(scene, longer);
    ChainsAreShort(scene, longer);
    assert CanGo(scene, p, k + 1);
  }

  /** What the renderer's termination needs: ranks that fall along the proxies it reaches. */
  ghost predicate Rankable(scene: Node) {
    exists env: Env, r: nat :: env.scene == scene && Ranked(env) && RanksBelow(env, [], r)
  }

  lemma {:induction false} RanksFall(env: Env, c: seq<Loc>)
    requires |c| >= 2 && Ranked(env) && Chain(env.scene, c) && Reachable(env.scene, c[0])
    ensures env.rank(c[|c| - 1]) < env.rank(c[0])
    decreases |c|
  {
    assert Shows(env.scene, c[0], c[1]);
    if |c| > 2 {
      ReachableOn(env.scene, c[0], c[1]);
      assert Chain(env.scene, c[1..]);
      RanksFall(env, c[1..]);
    }
  }

  /** The ranks exist, and so the recursion ends whatever is visible or clipped, if and only if
      no proxy that can be reached shows itself. */
  lemma RankableExactly(scene: Node)
    ensures Rankable(scene) <==> !Circular(scene)
  {
    if Rankable(scene) {
      var env: Env, r: nat :| env.scene == scene && Ranked(env) && RanksBelow(env, [], r);
      forall c ensures !Circle(scene, c) {
        if |c| >= 2 && Chain(scene, c) && Reachable(scene, c[0]) {
          RanksFall(env, c);
        }
      }
    }
    if !Circular(scene) {
      var limit := |Locs(scene)|;
      var env := Env(scene, (loc, t) => Box(0.0, 0.0, 0.0, 0.0), p => Longest(scene, p, limit));
      forall p, q | Reachable(scene, p) && Shows(scene, p, q) ensures env.rank(q) < env.rank(p) {
        LongestRanks(scene, p, q);
      }
      assert Ranked(env) && RanksBelow(env, [], limit + 1);
    }
  }

  // ----- the calls that are made -----

  ghost predicate Unhindered(scene: Node) {
    forall loc :: At(scene, loc).Some? ==> At(scene, loc).value.visible && !At(scene, loc).value.clips
  }

  ghost predicate CallsWithin(env: Env, bound: nat) {
    forall path :: Arrive(env, path).Some? ==> |path| <= bound
  }

  ghost predicate CallsBounded(env: Env) {
    exists bound: nat :: CallsWithin(env, bound)
  }

  lemma UnhinderedArrives(env: Env, path: Path)
    requires Unhindered(env.scene)
    ensures Arrive(env, path).Some? <==> PlaceOf(env.scene, path).Some?
  {
    ArrivesExactly(env, path);
    if PlaceOf(env.scene, path).Some? {
      forall k | 0 <= k < |path| ensures VisibleAt(env.scene, path[..k]) && !ClipsAt(env.scene, path[..k]) {
        PlacesBefore(env.scene, path, k);
        PlacesExist(env.scene, path[..k]);
      }
      assert InsideClips(env, path, 0.0, 0.0);
    }
  }

  lemma {:induction false} PlacesBefore(scene: Node, path: Path, k: nat)
    requires k <= |path| && PlaceOf(scene, path).Some?
    ensures PlaceOf(scene, path[..k]).Some?
  {
    if k < |path| {
      var n := |path| - 1;
      assert path[..n][..k] == path[..k];
      PlacesBefore(scene, path[..n], k);
    } else {
      assert path[..k] == path;
    }
  }

  /** No circle bounds the calls of every frame, whatever is visible and whatever the bounds of
      nodes are. With everything visible and nothing clipped they are bounded only then. */
  lemma CallsAreBoundedExactly(env: Env)
    ensures !Circular(env.scene) ==> CallsBounded(env)
    ensures Unhindered(env.scene) ==> (CallsBounded(env) <==> !Circular(env.scene))
  {
    BoundedExactly(env.scene);
    if !Circular(env.scene) {
      var bound: nat :| PathsWithin(env.scene, bound);
      forall path | Arrive(env, path).Some? ensures |path| <= bound {
        ArrivesExactly(env, path);
      }
      assert CallsWithin(env, bound);
    } else if Unhindered(env.scene) {
      forall bound: nat ensures !CallsWithin(env, bound) {
        assert !PathsWithin(env.scene, bound);
        var path :| PlaceOf(env.scene, path).Some? && |path| > bound;
        UnhinderedArrives(env, path);
      }
    }
  }

  // ----- one proxy, and two -----

  ghost predicate OneProxy(scene: Node) {
    forall p, q :: ProxyAt(scene, p) && ProxyAt(scene, q) ==> p == q
  }

  /** A single proxy shows no proxy. */
  lemma OneProxyShowsNone(scene: Node, p: Loc, q: Loc)
    requires OneProxy(scene)
    ensures !Shows(scene, p, q)
  {
    forall source | Follows(scene, p, source) ensures !(ProxyAt(scene, q) && Descends(scene, source, q)) {
      WalkMeetsAncestors(p, source);
    }
  }

  /** With one proxy rendering ends, and no chain of calls is longer than twice the height of
      the tree. */
  lemma OneProxyEnds(scene: Node, path: Path)
    requires OneProxy(scene)
    ensures !Circular(scene)
    ensures PlaceOf(scene, path).Some? ==> |path| <= 2 * Height(scene)
  {
    forall c ensures !Circle(scene, c) {
      if |c| >= 2 {
        OneProxyShowsNone(scene, c[0], c[1]);
      }
    }
    if PlaceOf(scene, path).Some? {
      PlacesExist(scene, path);
      PathFollowsChain(scene, path);
      PathIsWithin(scene, path);
      var followed := Followed(scene, path);
      if |followed| > 1 {
        OneProxyShowsNone(scene, followed[0], followed[1]);
      }
      MoreHeights(|followed|, 1, Height(scene));
    }
  }

  function ProxyOf(source: Loc): Node { Node(true, 0, false, 1.0, Proxy(Some(source)), []) }

  /** Two subtrees, each with a proxy that shows the other one. */
  const MUTUAL := Node(true, 0, false, 1.0, Drawn, [
    Node(true, 0, false, 1.0, Drawn, [ProxyOf([1])]), Node(true, 0, false, 1.0, Drawn, [ProxyOf([0])])])

  lemma MutualPlaces(side: nat)
    requires side <= 1
    ensures At(MUTUAL, [side]) == Some(MUTUAL.kids[side])
    ensures At(MUTUAL, [side, 0]) == Some(ProxyOf([1 - side]))
  {
    AtChild(MUTUAL, [], side);
    assert [] + [side] == [side];
    AtChild(MUTUAL, [side], 0);
    assert [side] + [0] == [side, 0];
  }

  lemma MutualShows(side: nat)
    requires side <= 1
    ensures Shows(MUTUAL, [side, 0], [1 - side, 0])
  {
    MutualPlaces(side);
    MutualPlaces(1 - side);
    WalkMeetsAncestors([side, 0], [1 - side]);
    assert [1 - side, 0][..1] == [1 - side];
    assert Descends(MUTUAL, [1 - side], [1 - side, 0]);
  }

  /** Two proxies that show each other's subtrees are circular. */
  lemma MutualProxiesAreCircular()
    ensures Circular(MUTUAL)
  {
    var path := [Child(0), Child(0)];
    MutualPlaces(0);
    PlaceMore(MUTUAL, [], Child(0));
    PlaceMore(MUTUAL, [Child(0)], Child(0));
    assert [] + [Child(0)] == [Child(0)] && [Child(0)] + [Child(0)] == path;
    assert At(MUTUAL, []) == Some(MUTUAL);
    assert LeadsTo(MUTUAL, [Child(0)], [0]) by { assert PlaceOf(MUTUAL, [Child(0)]).value.loc == [] + [0] == [0]; }
    assert LeadsTo(MUTUAL, path, [0, 0]) by { assert [0] + [0] == [0, 0]; }
    MutualShows(0);
    MutualShows(1);
    assert Circle(MUTUAL, [[0, 0], [1, 0], [0, 0]]);
  }
}
