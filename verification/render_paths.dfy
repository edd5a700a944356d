/** The calls of a frame as paths of moves, instead of the renderer's recursion: a node is
    painted exactly when some path arrives at it with something to paint. */
module RenderPaths {
  import opened Options
  import opened PaintOrder
  import opened RenderNode

  // ----- calls, one at a time -----

  datatype Arrival = Arrival(loc: Loc, n: Node, args: Args)

  function Leave(env: Env, at: Arrival, move: Move): Option<Arrival> {
    if !at.n.visible then None
    else
      match move
      case Child(i) =>
        if at.n.kind == Drawn && i < |at.n.kids| && !ClippedAway(ChildClip(env, at.loc, at.n, at.args))
        then Some(Arrival(at.loc + [i], at.n.kids[i], ChildArgs(env, at.loc, at.n, at.args)))
        else None
      case Source =>
        if at.n.kind.Proxy? && at.n.kind.source.Some? && Follows(env.scene, at.loc, at.n.kind.source.value)
        then
          var s := at.n.kind.source.value;
          Some(Arrival(s, At(env.scene, s).value, SourceArgs(at.loc, s, at.n, at.args)))
        else None
  }

  function Arrive(env: Env, path: Path): Option<Arrival> {
    if path == [] then Some(Arrival([], env.scene, START))
    else
      var before := Arrive(env, path[..|path| - 1]);
      if before.None? then None else Leave(env, before.value, path[|path| - 1])
  }

  lemma {:induction false} ArrivesInScene(env: Env, path: Path)
    requires Arrive(env, path).Some?
    ensures At(env.scene, Arrive(env, path).value.loc) == Some(Arrive(env, path).value.n)
  {
    if path != [] {
      ArrivesInScene(env, path[..|path| - 1]);
      var before, move := Arrive(env, path[..|path| - 1]).value, path[|path| - 1];
      if move.Child? {
        AtChild(env.scene, before.loc, move.index);
      }
    }
  }

  lemma ArriveMore(env: Env, path: Path, move: Move)
    ensures Arrive(env, path + [move]) ==
      if Arrive(env, path).None? then None else Leave(env, Arrive(env, path).value, move)
  {
    assert (path + [move])[..|path|] == path;
  }

  lemma {:induction false} ArrivesBefore(env: Env, path: Path, k: nat)
    requires k <= |path| && Arrive(env, path).Some?
    ensures Arrive(env, path[..k]).Some?
  {
    if k < |path| {
      assert path[..|path| - 1][..k] == path[..k];
      ArrivesBefore(env, path[..|path| - 1], k);
    } else {
      assert path[..k] == path;
    }
  }

  /** The node at the end of the path is painted, as d says. */
  ghost predicate Painted(env: Env, d: Draw) {
    var at := Arrive(env, d.path);
    && at.Some? && at.value.n.visible && at.value.n.kind == Drawn
    && d == Draw(d.path, at.value.loc, World(at.value.loc, at.value.args), Effective(at.value.n, at.value.args),
                 at.value.args.clip)
  }

  ghost predicate Beyond(env: Env, path: Path, d: Draw, move: Move) {
    path + [move] <= d.path && Painted(env, d)
  }

  /** What is painted at the end of a path or beyond it, by the move that leaves it. */
  lemma PaintedByMove(env: Env, path: Path, at: Arrival, d: Draw)
    requires Arrive(env, path) == Some(at) && path <= d.path && Painted(env, d) && d.path != path
    ensures exists move :: Leave(env, at, move).Some? && Beyond(env, path, d, move)
  {
    var move := d.path[|path|];
    ArrivesBefore(env, d.path, |path| + 1);
    assert d.path[..|path| + 1] == path + [move];
    assert Beyond(env, path, d, move);
  }

  lemma NothingBeyond(env: Env, path: Path, at: Arrival, d: Draw)
    requires Arrive(env, path) == Some(at) && forall move :: Leave(env, at, move).None?
    ensures path <= d.path && Painted(env, d) ==> d.path == path
  {
    if path <= d.path && Painted(env, d) && d.path != path {
      PaintedByMove(env, path, at, d);
    }
  }

  /** A visible node of its own kind that is not clipped away leaves only to its children. */
  lemma BeyondDrawn(env: Env, path: Path, at: Arrival, order: seq<nat>, d: Draw)
    requires Arrive(env, path) == Some(at) && at.n.visible && at.n.kind == Drawn
    requires forall i :: 0 <= i < |at.n.kids| ==> i in order
    ensures path <= d.path && Painted(env, d) && d.path != path ==> Via(path, order, d)
  {
    if path <= d.path && Painted(env, d) && d.path != path {
      PaintedByMove(env, path, at, d);
      var move :| Leave(env, at, move).Some? && Beyond(env, path, d, move);
      assert move.index in order;
    }
  }

  lemma BeyondProxy(env: Env, path: Path, at: Arrival, d: Draw)
    requires Arrive(env, path) == Some(at) && at.n.visible && at.n.kind.Proxy?
    ensures path <= d.path && Painted(env, d) ==> path + [Source] <= d.path
  {
    if path <= d.path && Painted(env, d) {
      PaintedByMove(env, path, at, d);
    }
  }

  lemma {:induction false} RendersPainted(env: Env, path: Path, loc: Loc, n: Node, a: Args, r: nat, d: Draw)
    requires Leads(env, path, loc, n, a) && Ranked(env) && RanksBelow(env, loc, r)
    requires Arrive(env, path) == Some(Arrival(loc, n, a))
    ensures d in Render(env, path, loc, n, a, r) <==> path <= d.path && Painted(env, d)
    decreases r, n, 1, 0
  {
    if !n.visible {
      NothingBeyond(env, path, Arrival(loc, n, a), d);
    } else if n.kind.Proxy? {
      BeyondProxy(env, path, Arrival(loc, n, a), d);
      if n.kind.source.Some? && Follows(env.scene, loc, n.kind.source.value) {
        var s := n.kind.source.value;
        RanksBelowSource(env, path, loc, s, r);
        PlaceMore(env.scene, path, Source);
        ArriveMore(env, path, Source);
        RendersPainted(env, path + [Source], s, At(env.scene, s).value, SourceArgs(loc, s, n, a), env.rank(loc), d);
      } else {
        NothingBeyond(env, path, Arrival(loc, n, a), d);
      }
    } else {
      RendersPaintedDrawn(env, path, loc, n, a, r, d);
    }
  }

  lemma {:induction false} RendersPaintedDrawn(env: Env, path: Path, loc: Loc, n: Node, a: Args, r: nat, d: Draw)
    requires Leads(env, path, loc, n, a) && Ranked(env) && RanksBelow(env, loc, r)
    requires Arrive(env, path) == Some(Arrival(loc, n, a)) && n.visible && n.kind == Drawn
    ensures d in Render(env, path, loc, n, a, r) <==> path <= d.path && Painted(env, d)
    decreases r, n, 0, |Order(ZIndices(n.kids))| + 1
  {
    var order := Order(ZIndices(n.kids));
    assert d.path == path ==> (Painted(env, d) <==> d == Draw(path, loc, World(loc, a), Effective(n, a), a.clip));
    if ClippedAway(ChildClip(env, loc, n, a)) {
      NothingBeyond(env, path, Arrival(loc, n, a), d);
    } else {
      SkippingTheSortKeepsOrder(ZIndices(n.kids));
      RendersPaintedKids(env, path, loc, n, order, a, r, d);
      BeyondDrawn(env, path, Arrival(loc, n, a), order, d);
    }
  }

  ghost predicate Via(path: Path, order: seq<nat>, d: Draw) {
    exists k :: 0 <= k < |order| && path + [Child(order[k])] <= d.path
  }

  lemma ViaFirst(path: Path, order: seq<nat>, d: Draw)
    requires order != []
    ensures Via(path, order, d) <==> path + [Child(order[0])] <= d.path || Via(path, order[1..], d)
  {
    assert forall k :: 0 <= k < |order| - 1 ==> order[1..][k] == order[k + 1];
    assert forall k :: 1 <= k < |order| ==> order[k] == order[1..][k - 1];
  }

  lemma {:induction false} RendersPaintedKids(
      env: Env, path: Path, loc: Loc, n: Node, order: seq<nat>, a: Args, r: nat, d: Draw)
    requires Leads(env, path, loc, n, a) && Ranked(env) && RanksBelow(env, loc, r)
    requires n.kind == Drawn && forall k :: 0 <= k < |order| ==> order[k] < |n.kids|
    requires Arrive(env, path) == Some(Arrival(loc, n, a)) && n.visible
    requires !ClippedAway(ChildClip(env, loc, n, a))
    ensures d in RenderKids(env, path, loc, n, order, a, r) <==> Via(path, order, d) && Painted(env, d)
    decreases r, n, 0, |order|
  {
    if order != [] {
      var i := order[0];
      AtChild(env.scene, loc, i);
      RanksBelowChild(env, loc, i, r);
      PlaceMore(env.scene, path, Child(i));
      ArriveMore(env, path, Child(i));
      RendersPainted(env, path + [Child(i)], loc + [i], n.kids[i], ChildArgs(env, loc, n, a), r, d);
      RendersPaintedKids(env, path, loc, n, order[1..], a, r, d);
      ViaFirst(path, order, d);
    }
  }

  /** A frame paints exactly the nodes the calls arrive at. */
  lemma FramePaints(env: Env, r: nat, d: Draw)
    requires Ranked(env) && RanksBelow(env, [], r)
    ensures d in Frame(env, r) <==> Painted(env, d)
  {
    RendersPainted(env, [], [], env.scene, START, r, d);
  }
}
