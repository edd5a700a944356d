/** The recursive renderer: which nodes are painted, in which order, with which transform,
    opacity and clip. A node is named by its place in the tree, the child indices from the
    root. Transforms are kept as the list of their factors, and the bounds of a node under
    a transform are given by any function. */
module RenderNode {
  import opened Options
  import opened PaintOrder

  type Loc = seq<nat>

  datatype Kind = Drawn | Proxy(source: Option<Loc>)

  datatype Node = Node(visible: bool, z: int, clips: bool, opacity: real, kind: Kind, kids: seq<Node>)

  function At(scene: Node, loc: Loc): Option<Node> {
    if loc == [] then Some(scene)
    else if loc[0] < |scene.kids| then At(scene.kids[loc[0]], loc[1..])
    else None
  }

  lemma {:induction false} AtChild(scene: Node, loc: Loc, i: nat)
    ensures At(scene, loc + [i]) ==
      var n := At(scene, loc);
      if n.Some? && i < |n.value.kids| then Some(n.value.kids[i]) else None
  {
    if loc == [] {
      assert (loc + [i])[1..] == [];
    } else {
      assert (loc + [i])[1..] == loc[1..] + [i];
      if loc[0] < |scene.kids| {
        AtChild(scene.kids[loc[0]], loc[1..], i);
      }
    }
  }

  datatype Box = Box(left: real, top: real, right: real, bottom: real)

  predicate Holds(b: Box, x: real, y: real) { b.left <= x < b.right && b.top <= y < b.bottom }

  predicate Empty(b: Box) { b.right <= b.left || b.bottom <= b.top }

  function Max(a: real, b: real): real { if a < b then b else a }

  function Min(a: real, b: real): real { if b < a then b else a }

  function Clipped(clip: Option<Box>, b: Box): Box {
    if clip.None? then b
    else Box(Max(clip.value.left, b.left), Max(clip.value.top, b.top),
             Min(clip.value.right, b.right), Min(clip.value.bottom, b.bottom))
  }

  /** Local is a node's own transform; Back moves the origin to the position of a node. */
  datatype Factor = Local(loc: Loc) | Back(loc: Loc)

  /** The scene, the bounds of a node under a transform, and a rank for its proxies. */
  datatype Env = Env(scene: Node, bounds: (Loc, seq<Factor>) -> Box, rank: Loc -> nat)

  datatype Args = Args(transform: seq<Factor>, opacity: real, clip: Option<Box>, ignoreOpacity: bool)

  /** How a call is reached from its caller. */
  datatype Move = Child(index: nat) | Source

  type Path = seq<Move>

  datatype Draw = Draw(path: seq<Move>, loc: Loc, transform: seq<Factor>, opacity: real, clip: Option<Box>)

  function World(loc: Loc, a: Args): seq<Factor> { a.transform + [Local(loc)] }

  function Effective(n: Node, a: Args): real { if a.ignoreOpacity then a.opacity else a.opacity * n.opacity }

  function ChildClip(env: Env, loc: Loc, n: Node, a: Args): Option<Box> {
    if n.clips then Some(Clipped(a.clip, env.bounds(loc, World(loc, a)))) else a.clip
  }

  function ChildArgs(env: Env, loc: Loc, n: Node, a: Args): Args {
    Args(World(loc, a), Effective(n, a), ChildClip(env, loc, n, a), false)
  }

  function SourceArgs(loc: Loc, source: Loc, n: Node, a: Args): Args {
    Args(World(loc, a) + [Back(source)], Effective(n, a), a.clip, true)
  }

  predicate ClippedAway(clip: Option<Box>) { clip.Some? && Empty(clip.value) }

  /** The walk from a node over its parents meets the source. */
  predicate WalkMeets(loc: Loc, source: Loc) {
    loc == source || (loc != [] && WalkMeets(loc[..|loc| - 1], source))
  }

  lemma {:induction false} WalkMeetsAncestors(loc: Loc, source: Loc)
    ensures WalkMeets(loc, source) <==> source <= loc
  {
    if loc != [] && loc != source {
      WalkMeetsAncestors(loc[..|loc| - 1], source);
    }
  }

  predicate ProxyAt(scene: Node, loc: Loc) {
    At(scene, loc).Some? && At(scene, loc).value.kind.Proxy?
  }

  /** The proxy's source is there, and is neither the proxy nor an ancestor of it. */
  predicate Follows(scene: Node, loc: Loc, source: Loc) {
    && ProxyAt(scene, loc) && At(scene, loc).value.kind.source == Some(source)
    && At(scene, source).Some? && !WalkMeets(loc, source)
  }

  // ----- where a path leads, whatever is visible or clipped -----

  datatype Place = Place(loc: Loc, transform: seq<Factor>)

  function Moved(scene: Node, at: Place, move: Move): Option<Place> {
    var n := At(scene, at.loc);
    if n.None? then None
    else
      match move
      case Child(i) =>
        if n.value.kind == Drawn && i < |n.value.kids|
        then Some(Place(at.loc + [i], at.transform + [Local(at.loc)])) else None
      case Source =>
        if n.value.kind.Proxy? && n.value.kind.source.Some? && Follows(scene, at.loc, n.value.kind.source.value)
        then Some(Place(n.value.kind.source.value, at.transform + [Local(at.loc)] + [Back(n.value.kind.source.value)]))
        else None
  }

  function PlaceOf(scene: Node, path: Path): Option<Place> {
    if path == [] then Some(Place([], []))
    else
      var before := PlaceOf(scene, path[..|path| - 1]);
      if before.None? then None else Moved(scene, before.value, path[|path| - 1])
  }

  lemma PlaceMore(scene: Node, path: Path, move: Move)
    ensures PlaceOf(scene, path + [move]) ==
      if PlaceOf(scene, path).None? then None else Moved(scene, PlaceOf(scene, path).value, move)
  {
    assert (path + [move])[..|path|] == path;
  }

  // ----- ranks of proxies -----

  /** From one node to one below it by moves to children alone. */
  ghost predicate Descends(scene: Node, from: Loc, to: Loc) {
    && from <= to && At(scene, to).Some?
    && forall k :: |from| <= k < |to| ==> At(scene, to[..k]).Some? && At(scene, to[..k]).value.kind == Drawn
  }

  /** What proxy p shows leads to proxy q by moves to children alone. */
  ghost predicate Shows(scene: Node, p: Loc, q: Loc) {
    ProxyAt(scene, q) && exists source :: Follows(scene, p, source) && Descends(scene, source, q)
  }

  predicate LeadsTo(scene: Node, path: Path, loc: Loc) {
    PlaceOf(scene, path).Some? && PlaceOf(scene, path).value.loc == loc
  }

  ghost predicate Reachable(scene: Node, loc: Loc) {
    exists path :: LeadsTo(scene, path, loc)
  }

  /** A reachable proxy shows proxies of smaller rank only. */
  ghost predicate Ranked(env: Env) {
    forall p, q :: Reachable(env.scene, p) && Shows(env.scene, p, q) ==> env.rank(q) < env.rank(p)
  }

  ghost predicate RanksBelow(env: Env, loc: Loc, r: nat) {
    forall q :: ProxyAt(env.scene, q) && Descends(env.scene, loc, q) ==> env.rank(q) < r
  }

  lemma RanksBelowChild(env: Env, loc: Loc, i: nat, r: nat)
    requires RanksBelow(env, loc, r) && At(env.scene, loc).Some? && At(env.scene, loc).value.kind == Drawn
    ensures RanksBelow(env, loc + [i], r)
  {
    forall q | ProxyAt(env.scene, q) && Descends(env.scene, loc + [i], q) ensures env.rank(q) < r {
      assert loc <= loc + [i];
      assert q[..|loc|] == loc;
      assert Descends(env.scene, loc, q);
    }
  }

  lemma RanksBelowSource(env: Env, path: Path, loc: Loc, source: Loc, r: nat)
    requires Ranked(env) && RanksBelow(env, loc, r) && Follows(env.scene, loc, source)
    requires LeadsTo(env.scene, path, loc)
    ensures env.rank(loc) < r && RanksBelow(env, source, env.rank(loc))
  {
    assert Descends(env.scene, loc, loc);
    assert Reachable(env.scene, loc);
    forall q | ProxyAt(env.scene, q) && Descends(env.scene, source, q) ensures env.rank(q) < env.rank(loc) {
      assert Shows(env.scene, loc, q);
    }
  }

  function ZIndices(kids: seq<Node>): (zs: seq<int>)
    ensures |zs| == |kids|
  {
    seq(|kids|, i requires 0 <= i < |kids| => kids[i].z)
  }

  /** The path leads to this node, with this transform. */
  predicate Leads(env: Env, path: Path, loc: Loc, n: Node, a: Args) {
    At(env.scene, loc) == Some(n) && PlaceOf(env.scene, path) == Some(Place(loc, a.transform))
  }

  function Render(env: Env, path: seq<Move>, loc: Loc, n: Node, a: Args, ghost r: nat): seq<Draw>
    requires Leads(env, path, loc, n, a) && Ranked(env) && RanksBelow(env, loc, r)
    decreases r, n, 1, 0
  {
    if !n.visible then []
    else
      match n.kind
      case Proxy(source) =>
        if source.Some? && Follows(env.scene, loc, source.value) then
          var s := source.value;
          RanksBelowSource(env, path, loc, s, r);
          PlaceMore(env.scene, path, Source);
          Render(env, path + [Source], s, At(env.scene, s).value, SourceArgs(loc, s, n, a), env.rank(loc))
        else []
      case Drawn =>
        var own := [Draw(path, loc, World(loc, a), Effective(n, a), a.clip)];
        if ClippedAway(ChildClip(env, loc, n, a)) then own
        else own + RenderKids(env, path, loc, n, Order(ZIndices(n.kids)), a, r)
  }

  function RenderKids(env: Env, path: seq<Move>, loc: Loc, n: Node, order: seq<nat>, a: Args, ghost r: nat): seq<Draw>
    requires Leads(env, path, loc, n, a) && Ranked(env) && RanksBelow(env, loc, r)
    requires n.kind == Drawn && forall k :: 0 <= k < |order| ==> order[k] < |n.kids|
    decreases r, n, 0, |order|
  {
    if order == [] then []
    else
      var i := order[0];
      AtChild(env.scene, loc, i);
      RanksBelowChild(env, loc, i, r);
      PlaceMore(env.scene, path, Child(i));
      Render(env, path + [Child(i)], loc + [i], n.kids[i], ChildArgs(env, loc, n, a), r)
      + RenderKids(env, path, loc, n, order[1..], a, r)
  }

  const START := Args([], 1.0, None, false)

  function Frame(env: Env, ghost r: nat): seq<Draw>
    requires Ranked(env) && RanksBelow(env, [], r)
  {
    Render(env, [], [], env.scene, START, r)
  }
}
