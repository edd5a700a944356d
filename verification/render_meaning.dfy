/** The meaning of a rendered frame: paint order, clips and opacity along the path of calls. */
module RenderMeaning {
  import opened Options
  import opened PaintOrder
  import opened RenderNode
  import opened RenderPaths

  // ----- paint order -----

  /** A node comes before what is reached through it; of two children of a node, the one
      with the smaller z index comes first, or else the one that is listed first. */
  ghost predicate Before(env: Env, p: Path, q: Path) {
    exists k: nat :: ParentFirst(p, q, k) || SiblingFirst(env, p, q, k)
  }

  predicate ParentFirst(p: Path, q: Path, k: nat) {
    k == |p| && p < q
  }

  predicate SiblingFirst(env: Env, p: Path, q: Path, k: nat) {
    && k < |p| && k < |q| && p[..k] == q[..k] && p[k].Child? && q[k].Child?
    && var at := Arrive(env, p[..k]);
    && at.Some? && p[k].index < |at.value.n.kids| && q[k].index < |at.value.n.kids|
    && Comes(ZIndices(at.value.n.kids), p[k].index, q[k].index)
  }

  ghost predicate InOrder(env: Env, draws: seq<Draw>) {
    forall a, b :: 0 <= a < b < |draws| ==> Before(env, draws[a].path, draws[b].path)
  }

  lemma AppendInOrder(env: Env, front: seq<Draw>, back: seq<Draw>)
    requires InOrder(env, front) && InOrder(env, back)
    requires forall d, f :: d in front && f in back ==> Before(env, d.path, f.path)
    ensures InOrder(env, front + back)
  {
    var all := front + back;
    forall a, b | 0 <= a < b < |all| ensures Before(env, all[a].path, all[b].path) {
      if a < |front| && b >= |front| {
        assert all[a] in front && all[b] in back;
      }
    }
  }

  lemma {:induction false} RendersInOrder(env: Env, path: Path, loc: Loc, n: Node, a: Args, r: nat)
    requires Leads(env, path, loc, n, a) && Ranked(env) && RanksBelow(env, loc, r)
    requires Arrive(env, path) == Some(Arrival(loc, n, a))
    ensures InOrder(env, Render(env, path, loc, n, a, r))
    decreases r, n, 1, 0
  {
    if n.visible && n.kind.Proxy? {
      if n.kind.source.Some? && Follows(env.scene, loc, n.kind.source.value) {
        var s := n.kind.source.value;
        RanksBelowSource(env, path, loc, s, r);
        PlaceMore(env.scene, path, Source);
        ArriveMore(env, path, Source);
        RendersInOrder(env, path + [Source], s, At(env.scene, s).value, SourceArgs(loc, s, n, a), env.rank(loc));
      }
    } else if n.visible && !ClippedAway(ChildClip(env, loc, n, a)) {
      RendersInOrderDrawn(env, path, loc, n, a, r);
    }
  }

  lemma {:induction false} RendersInOrderDrawn(env: Env, path: Path, loc: Loc, n: Node, a: Args, r: nat)
    requires Leads(env, path, loc, n, a) && Ranked(env) && RanksBelow(env, loc, r)
    requires Arrive(env, path) == Some(Arrival(loc, n, a)) && n.visible && n.kind == Drawn
    requires !ClippedAway(ChildClip(env, loc, n, a))
    ensures InOrder(env, Render(env, path, loc, n, a, r))
    decreases r, n, 0, |Order(ZIndices(n.kids))| + 1
  {
    var order := Order(ZIndices(n.kids));
    SkippingTheSortKeepsOrder(ZIndices(n.kids));
    RendersInOrderKids(env, path, loc, n, order, a, r);
    var own := Draw(path, loc, World(loc, a), Effective(n, a), a.clip);
    var kids := RenderKids(env, path, loc, n, order, a, r);
    forall f | f in kids ensures Before(env, path, f.path) {
      RendersPaintedKids(env, path, loc, n, order, a, r, f);
      assert ParentFirst(path, f.path, |path|);
    }
    AppendInOrder(env, [own], kids);
  }

  lemma {:induction false} RendersInOrderKids(
      env: Env, path: Path, loc: Loc, n: Node, order: seq<nat>, a: Args, r: nat)
    requires Leads(env, path, loc, n, a) && Ranked(env) && RanksBelow(env, loc, r)
    requires n.kind == Drawn && forall k :: 0 <= k < |order| ==> order[k] < |n.kids|
    requires forall k, l :: 0 <= k < l < |order| ==> Comes(ZIndices(n.kids), order[k], order[l])
    requires Arrive(env, path) == Some(Arrival(loc, n, a)) && n.visible
    requires !ClippedAway(ChildClip(env, loc, n, a))
    ensures InOrder(env, RenderKids(env, path, loc, n, order, a, r))
    decreases r, n, 0, |order|
  {
    if order != [] {
      var i := order[0];
      AtChild(env.scene, loc, i);
      RanksBelowChild(env, loc, i, r);
      PlaceMore(env.scene, path, Child(i));
      ArriveMore(env, path, Child(i));
      RendersInOrder(env, path + [Child(i)], loc + [i], n.kids[i], ChildArgs(env, loc, n, a), r);
      RendersInOrderKids(env, path, loc, n, order[1..], a, r);
      var front := Render(env, path + [Child(i)], loc + [i], n.kids[i], ChildArgs(env, loc, n, a), r);
      var back := RenderKids(env, path, loc, n, order[1..], a, r);
      forall d, f | d in front && f in back ensures Before(env, d.path, f.path) {
        KidsInOrder(env, path, loc, n, order, a, r, d, f);
      }
      AppendInOrder(env, front, back);
    }
  }

  /** What the first child paints comes before what the later ones paint. */
  lemma KidsInOrder(
      env: Env, path: Path, loc: Loc, n: Node, order: seq<nat>, a: Args, r: nat, d: Draw, f: Draw)
    requires Leads(env, path, loc, n, a) && Ranked(env) && RanksBelow(env, loc, r) && n.kind == Drawn && order != []
    requires forall k :: 0 <= k < |order| ==> order[k] < |n.kids|
    requires forall k, l :: 0 <= k < l < |order| ==> Comes(ZIndices(n.kids), order[k], order[l])
    requires Arrive(env, path) == Some(Arrival(loc, n, a)) && n.visible && !ClippedAway(ChildClip(env, loc, n, a))
    requires At(env.scene, loc + [order[0]]) == Some(n.kids[order[0]]) && RanksBelow(env, loc + [order[0]], r)
    requires Leads(env, path + [Child(order[0])], loc + [order[0]], n.kids[order[0]], ChildArgs(env, loc, n, a))
    requires
      d in Render(env, path + [Child(order[0])], loc + [order[0]], n.kids[order[0]], ChildArgs(env, loc, n, a), r)
    requires f in RenderKids(env, path, loc, n, order[1..], a, r)
    ensures Before(env, d.path, f.path)
  {
    var i := order[0];
    ArriveMore(env, path, Child(i));
    RendersPainted(env, path + [Child(i)], loc + [i], n.kids[i], ChildArgs(env, loc, n, a), r, d);
    RendersPaintedKids(env, path, loc, n, order[1..], a, r, f);
    SiblingsInOrder(env, path, order, d, f);
  }

  lemma SiblingsInOrder(env: Env, path: Path, order: seq<nat>, d: Draw, f: Draw)
    requires order != [] && Arrive(env, path).Some?
    requires forall k :: 0 <= k < |order| ==> order[k] < |Arrive(env, path).value.n.kids|
    requires forall k, l :: 0 <= k < l < |order| ==> Comes(ZIndices(Arrive(env, path).value.n.kids), order[k], order[l])
    requires path + [Child(order[0])] <= d.path && Via(path, order[1..], f)
    ensures Before(env, d.path, f.path)
  {
    var k :| 0 <= k < |order[1..]| && path + [Child(order[1..][k])] <= f.path;
    assert order[1..][k] == order[k + 1];
    assert d.path[..|path|] == path && f.path[..|path|] == path;
    assert Comes(ZIndices(Arrive(env, path).value.n.kids), order[0], order[k + 1]);
    assert SiblingFirst(env, d.path, f.path, |path|);
  }

  /** Of any two nodes painted, the later one comes after the earlier one in the tree. */
  lemma FrameIsInOrder(env: Env, r: nat)
    requires Ranked(env) && RanksBelow(env, [], r)
    ensures InOrder(env, Frame(env, r))
  {
    RendersInOrder(env, [], [], env.scene, START, r);
  }

  lemma NotBeforeItself(env: Env, p: Path)
    ensures !Before(env, p, p)
  {
    forall k: nat ensures !ParentFirst(p, p, k) && !SiblingFirst(env, p, p, k) {
    }
  }

  /** Nothing is painted twice: two draws of a frame are reached by different calls. */
  lemma FramePaintsOnce(env: Env, r: nat, a: nat, b: nat)
    requires Ranked(env) && RanksBelow(env, [], r) && a < b < |Frame(env, r)|
    ensures Frame(env, r)[a].path != Frame(env, r)[b].path
  {
    FrameIsInOrder(env, r);
    NotBeforeItself(env, Frame(env, r)[a].path);
  }

  // ----- where a path leads, whatever is visible or clipped -----

  /** The node a path leads to. */
  function NodeAt(scene: Node, path: Path): Option<Node> {
    var at := PlaceOf(scene, path);
    if at.None? then None else At(scene, at.value.loc)
  }

  predicate VisibleAt(scene: Node, path: Path) {
    NodeAt(scene, path).Some? && NodeAt(scene, path).value.visible
  }

  /** The node is left to its children and clips them. */
  predicate ClipsAt(scene: Node, path: Path) {
    NodeAt(scene, path).Some? && NodeAt(scene, path).value.kind == Drawn && NodeAt(scene, path).value.clips
  }

  function BoundsAt(env: Env, path: Path): Box
    requires PlaceOf(env.scene, path).Some?
  {
    var at := PlaceOf(env.scene, path).value;
    env.bounds(at.loc, at.transform + [Local(at.loc)])
  }

  /** The point lies in the bounds of every clipping node before the end of the path. */
  ghost predicate InsideClips(env: Env, path: Path, x: real, y: real) {
    forall k :: 0 <= k < |path| && ClipsAt(env.scene, path[..k]) ==> Holds(BoundsAt(env, path[..k]), x, y)
  }

  ghost predicate SomeInsideClips(env: Env, path: Path) {
    exists x, y :: InsideClips(env, path, x, y)
  }

  ghost predicate AllVisible(scene: Node, path: Path) {
    forall k :: 0 <= k < |path| ==> VisibleAt(scene, path[..k])
  }

  ghost predicate ClipMeans(env: Env, path: Path, clip: Option<Box>) {
    && (clip.None? <==> forall k :: 0 <= k < |path| ==> !ClipsAt(env.scene, path[..k]))
    && (clip.Some? ==> forall x, y :: Holds(clip.value, x, y) <==> InsideClips(env, path, x, y))
  }

  lemma EmptyHoldsNothing(b: Box)
    ensures Empty(b) <==> forall x, y :: !Holds(b, x, y)
  {
    if !Empty(b) {
      assert Holds(b, b.left, b.top);
    }
  }

  lemma InsideClipsOneMore(env: Env, path: Path, x: real, y: real)
    requires path != []
    ensures var front := path[..|path| - 1];
      InsideClips(env, path, x, y)
      <==> InsideClips(env, front, x, y) && (ClipsAt(env.scene, front) ==> Holds(BoundsAt(env, front), x, y))
  {
    var n := |path| - 1;
    var front := path[..n];
    if InsideClips(env, path, x, y) {
      forall k | 0 <= k < n && ClipsAt(env.scene, front[..k]) ensures Holds(BoundsAt(env, front[..k]), x, y) {
        assert path[..k] == front[..k];
      }
      assert ClipsAt(env.scene, path[..n]) ==> Holds(BoundsAt(env, path[..n]), x, y);
    } else {
      var k :| 0 <= k < |path| && ClipsAt(env.scene, path[..k]) && !Holds(BoundsAt(env, path[..k]), x, y);
      assert k < n ==> path[..k] == front[..k];
    }
  }

  lemma ClipMeansOneMore(env: Env, path: Path, clip: Option<Box>, next: Option<Box>)
    requires path != [] && ClipMeans(env, path[..|path| - 1], clip) && PlaceOf(env.scene, path[..|path| - 1]).Some?
    requires var front := path[..|path| - 1];
      next == if ClipsAt(env.scene, front) then Some(Clipped(clip, BoundsAt(env, front))) else clip
    ensures ClipMeans(env, path, next)
  {
    var front := path[..|path| - 1];
    assert forall k :: 0 <= k < |path| ==> path[..k] == front[..k];
    assert front[..|path| - 1] == front;
    if next.Some? {
      forall x, y ensures Holds(next.value, x, y) <==> InsideClips(env, path, x, y) {
        InsideClipsOneMore(env, path, x, y);
      }
    }
  }

  /** Arriving: the place, the product of the opacities, and the common part of the clips. */
  ghost predicate ArrivesAs(env: Env, path: Path, at: Arrival) {
    && PlaceOf(env.scene, path) == Some(Place(at.loc, at.args.transform))
    && At(env.scene, at.loc) == Some(at.n)
    && ClipMeans(env, path, at.args.clip)
    && Effective(at.n, at.args) == Product(env.scene, path)
  }

  /** The opacities of all nodes on the path but those a proxy shows. */
  function Product(scene: Node, path: Path): real {
    var own := if NodeAt(scene, path).Some? then NodeAt(scene, path).value.opacity else 1.0;
    if path == [] then own
    else if path[|path| - 1].Source? then Product(scene, path[..|path| - 1])
    else Product(scene, path[..|path| - 1]) * own
  }

  ghost predicate Reached(env: Env, path: Path) {
    PlaceOf(env.scene, path).Some? && AllVisible(env.scene, path) && SomeInsideClips(env, path)
  }

  lemma AllVisibleOneMore(scene: Node, path: Path)
    requires path != []
    ensures AllVisible(scene, path)
      <==> AllVisible(scene, path[..|path| - 1]) && VisibleAt(scene, path[..|path| - 1])
  {
    var n := |path| - 1;
    if AllVisible(scene, path) {
      forall k | 0 <= k < n ensures VisibleAt(scene, path[..n][..k]) {
        assert path[..n][..k] == path[..k];
      }
      assert VisibleAt(scene, path[..n]);
    } else {
      var k :| 0 <= k < |path| && !VisibleAt(scene, path[..k]);
      assert k < n ==> path[..k] == path[..n][..k];
    }
  }

  lemma ClipsShare(env: Env, path: Path, clip: Option<Box>)
    requires ClipMeans(env, path, clip)
    ensures SomeInsideClips(env, path) <==> !ClippedAway(clip)
  {
    if clip.None? {
      assert InsideClips(env, path, 0.0, 0.0);
    } else {
      EmptyHoldsNothing(clip.value);
    }
  }

  lemma LeaveAs(env: Env, path: Path, move: Move, at: Arrival)
    requires ArrivesAs(env, path, at) && Leave(env, at, move).Some?
    ensures PlaceOf(env.scene, path + [move]) == Moved(env.scene, PlaceOf(env.scene, path).value, move)
    ensures ArrivesAs(env, path + [move], Leave(env, at, move).value)
  {
    var more, next := path + [move], Leave(env, at, move).value;
    assert more[..|more| - 1] == path;
    if move.Child? {
      AtChild(env.scene, at.loc, move.index);
    }
    ClipMeansOneMore(env, more, at.args.clip, next.args.clip);
  }

  /** A call arrives exactly where every node on the way is visible and the clips on the way
      have a point in common. */
  lemma {:induction false} ArrivesExactly(env: Env, path: Path)
    ensures Arrive(env, path).Some? ==> ArrivesAs(env, path, Arrive(env, path).value)
    ensures Arrive(env, path).Some? <==> Reached(env, path)
  {
    if path == [] {
      assert InsideClips(env, path, 0.0, 0.0);
    } else {
      var front, move := path[..|path| - 1], path[|path| - 1];
      assert path == front + [move];
      ArrivesExactly(env, front);
      AllVisibleOneMore(env.scene, path);
      if Arrive(env, front).Some? {
        var at := Arrive(env, front).value;
        LeavesExactly(env, front, move, at);
      } else if SomeInsideClips(env, path) {
        FewerClips(env, path);
      }
    }
  }

  lemma FewerClips(env: Env, path: Path)
    requires path != [] && SomeInsideClips(env, path)
    ensures SomeInsideClips(env, path[..|path| - 1])
  {
    var x, y :| InsideClips(env, path, x, y);
    InsideClipsOneMore(env, path, x, y);
  }

  lemma LeavesExactly(env: Env, front: Path, move: Move, at: Arrival)
    requires Arrive(env, front) == Some(at) && ArrivesAs(env, front, at) && Reached(env, front)
    ensures var path := front + [move];
      && (Arrive(env, path).Some? ==> ArrivesAs(env, path, Arrive(env, path).value))
      && (Arrive(env, path).Some? <==> Reached(env, path))
  {
    var path := front + [move];
    assert path[..|path| - 1] == front;
    AllVisibleOneMore(env.scene, path);
    if Leave(env, at, move).Some? {
      LeaveAs(env, front, move, at);
    }
    if PlaceOf(env.scene, path).Some? && at.n.visible {
      var clip := if ClipsAt(env.scene, front) then Some(Clipped(at.args.clip, BoundsAt(env, front))) else at.args.clip;
      ClipMeansOneMore(env, path, at.args.clip, clip);
      ClipsShare(env, path, clip);
      if move.Source? {
        ClipsShare(env, front, at.args.clip);
      }
    }
  }

  /** What a frame paints: every node of its own kind that is visible, has only visible nodes
      on its path, and whose clips have a common point. Each is painted with the product
      of the opacities on its path and clipped to exactly what its clips have in common. */
  lemma FrameMeans(env: Env, r: nat, d: Draw)
    requires Ranked(env) && RanksBelow(env, [], r)
    ensures d in Frame(env, r) ==>
      Reached(env, d.path) && VisibleAt(env.scene, d.path) && NodeAt(env.scene, d.path).value.kind == Drawn
    ensures d in Frame(env, r) ==>
      var at := PlaceOf(env.scene, d.path).value;
      d.loc == at.loc && d.transform == at.transform + [Local(at.loc)] && d.opacity == Product(env.scene, d.path)
    ensures d in Frame(env, r) ==> ClipMeans(env, d.path, d.clip)
  {
    FramePaints(env, r, d);
    ArrivesExactly(env, d.path);
  }

  lemma EveryVisibleNodeIsPainted(env: Env, r: nat, path: Path)
    requires Ranked(env) && RanksBelow(env, [], r)
    requires Reached(env, path) && VisibleAt(env.scene, path) && NodeAt(env.scene, path).value.kind == Drawn
    ensures exists d :: d in Frame(env, r) && d.path == path
  {
    ArrivesExactly(env, path);
    var at := Arrive(env, path).value;
    var d := Draw(path, at.loc, World(at.loc, at.args), Effective(at.n, at.args), at.args.clip);
    FramePaints(env, r, d);
  }
}
