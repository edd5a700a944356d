/** Parent chains of the scene, and the choice of the node a drag preview may show. */
module SceneTree {
  import opened Options

  /** Parents and depths of nodes. */
  datatype Links = Links(parent: map<nat, nat>, depth: nat -> nat)

  ghost predicate Grounded(t: Links) {
    forall n :: n in t.parent ==> t.depth(t.parent[n]) < t.depth(n)
  }

  /** A node's depth exceeds its parent's, so parent chains end. */
  type Tree = t: Links | Grounded(t) witness Links(map[], n => 0)

  /** The node, its parent, and so on up to the root. */
  ghost function Chain(t: Tree, n: nat): (chain: seq<nat>)
    ensures |chain| > 0 && chain[0] == n
    decreases t.depth(n)
  {
    if n in t.parent then [n] + Chain(t, t.parent[n]) else [n]
  }

  /** The node top is n or one of its ancestors; that is, n lies in the subtree of top. */
  ghost predicate Above(t: Tree, top: nat, n: nat)
  {
    top in Chain(t, n)
  }

  lemma {:induction false} AboveIsTransitive(t: Tree, a: nat, b: nat, c: nat)
    requires Above(t, a, b) && Above(t, b, c)
    ensures Above(t, a, c)
    decreases t.depth(c)
  {
    if c in t.parent && b != c {
      AboveIsTransitive(t, a, b, t.parent[c]);
    }
  }

  lemma {:induction false} AboveIsNotDeeper(t: Tree, a: nat, b: nat)
    requires Above(t, a, b)
    ensures t.depth(a) <= t.depth(b)
    ensures t.depth(a) == t.depth(b) ==> a == b
    decreases t.depth(b)
  {
    if a != b {
      AboveIsNotDeeper(t, a, t.parent[b]);
    }
  }

  lemma AboveIsAntisymmetric(t: Tree, a: nat, b: nat)
    requires Above(t, a, b) && Above(t, b, a)
    ensures a == b
  {
    AboveIsNotDeeper(t, a, b);
    AboveIsNotDeeper(t, b, a);
  }

  /** The ancestors of a node are in line. */
  lemma {:induction false} AncestorsAreInLine(t: Tree, a: nat, b: nat, n: nat)
    requires Above(t, a, n) && Above(t, b, n)
    ensures Above(t, a, b) || Above(t, b, a)
    decreases t.depth(n)
  {
    if a != n && b != n {
      AncestorsAreInLine(t, a, b, t.parent[n]);
    }
  }

  method IsAncestorOrSelf(t: Tree, ancestor: Option<nat>, node: Option<nat>) returns (found: bool)
    ensures found <==> ancestor.Some? && node.Some? && Above(t, ancestor.value, node.value)
  {
    if ancestor.None? || node.None? {
      return false;
    }
    var current := node;
    while current.Some?
      invariant Above(t, ancestor.value, node.value) <==> current.Some? && Above(t, ancestor.value, current.value)
      decreases current.Some?, if current.Some? then t.depth(current.value) else 0
    {
      if current == ancestor {
        return true;
      }
      current := if current.value in t.parent then Some(t.parent[current.value]) else None;
    }
    return false;
  }

  /** The ancestor a number of levels up, or the root if there are not that many. */
  method AncestorAt(t: Tree, n: nat, levels: nat) returns (target: nat)
    ensures target == Ancestor(t, n, levels)
  {
    target := n;
    var level := 0;
    while level < levels && target in t.parent
      invariant level <= levels && Ancestor(t, target, levels - level) == Ancestor(t, n, levels)
    {
      target, level := t.parent[target], level + 1;
    }
  }

  function Ancestor(t: Tree, n: nat, levels: nat): nat
    decreases levels
  {
    if levels > 0 && n in t.parent then Ancestor(t, t.parent[n], levels - 1) else n
  }

  lemma {:induction false} AncestorIsAbove(t: Tree, n: nat, levels: nat)
    ensures Above(t, Ancestor(t, n, levels), n)
    decreases levels
  {
    if levels > 0 && n in t.parent {
      AncestorIsAbove(t, t.parent[n], levels - 1);
    }
  }

  // ----- the preview target -----

  ghost function SafeFrom(t: Tree, current: nat, requested: nat, overlay: nat, safe: Option<nat>): Option<nat>
    decreases t.depth(current)
  {
    if Above(t, current, overlay) then safe
    else if current == requested || current !in t.parent then Some(current)
    else SafeFrom(t, t.parent[current], requested, overlay, Some(current))
  }

  ghost function SafeTarget(t: Tree, source: nat, requested: Option<nat>, overlay: Option<nat>): Option<nat>
  {
    if requested.None? || overlay.None? then requested
    else SafeFrom(t, source, requested.value, overlay.value, None)
  }

  method SafePreviewTarget(t: Tree, source: nat, requested: Option<nat>, overlay: Option<nat>)
    returns (safe: Option<nat>)
    ensures safe == SafeTarget(t, source, requested, overlay)
  {
    if requested.None? || overlay.None? {
      return requested;
    }
    safe := None;
    var current := Some(source);
    while current.Some?
      invariant SafeTarget(t, source, requested, overlay)
        == if current.Some? then SafeFrom(t, current.value, requested.value, overlay.value, safe) else safe
      decreases current.Some?, if current.Some? then t.depth(current.value) else 0
    {
      var reaches := IsAncestorOrSelf(t, current, overlay);
      if reaches {
        break;
      }
      safe := current;
      if current == requested {
        break;
      }
      current := if current.value in t.parent then Some(t.parent[current.value]) else None;
    }
  }

  lemma {:induction false} SafeFromIsHighest(
      t: Tree, current: nat, requested: nat, overlay: nat, safe: Option<nat>, c: nat)
    requires Above(t, requested, current)
    requires Above(t, c, current) && Above(t, requested, c)
    ensures var result := SafeFrom(t, current, requested, overlay, safe);
      if Above(t, current, overlay) then result == safe
      else
        && result.Some? && Above(t, result.value, current) && Above(t, requested, result.value)
        && !Above(t, result.value, overlay)
        && (!Above(t, c, overlay) <==> Above(t, result.value, c))
    decreases t.depth(current)
  {
    if Above(t, current, overlay) {
    } else if current == requested || current !in t.parent {
      AboveIsAntisymmetric(t, c, current);
    } else {
      var up := t.parent[current];
      var result := SafeFrom(t, up, requested, overlay, Some(current));
      if c == current {
        SafeFromIsHighest(t, up, requested, overlay, Some(current), up);
        assert Above(t, up, current);
        if !Above(t, up, overlay) {
          AboveIsTransitive(t, result.value, up, current);
        }
      } else {
        SafeFromIsHighest(t, up, requested, overlay, Some(current), c);
        if Above(t, up, overlay) {
          AboveIsTransitive(t, c, up, overlay);
          if Above(t, current, c) {
            AboveIsAntisymmetric(t, c, current);
          }
        }
      }
    }
  }

  /** The preview target is the highest node on the way from the source to the requested
      node whose subtree excludes the overlay root. There is none exactly when the source
      itself holds the overlay root. */
  lemma SafeTargetIsHighest(t: Tree, source: nat, requested: nat, overlay: nat, c: nat)
    requires Above(t, c, source) && Above(t, requested, c)
    ensures var safe := SafeTarget(t, source, Some(requested), Some(overlay));
      && (safe.None? <==> Above(t, source, overlay))
      && (safe.Some? ==> Above(t, safe.value, source) && Above(t, requested, safe.value))
      && (safe.Some? ==> !Above(t, safe.value, overlay))
      && (!Above(t, c, overlay) <==> safe.Some? && Above(t, safe.value, c))
  {
    AboveIsTransitive(t, requested, c, source);
    SafeFromIsHighest(t, source, requested, overlay, None, c);
    if Above(t, source, overlay) {
      AboveIsTransitive(t, c, source, overlay);
    }
  }

  /** Going up some levels ends at that place of the chain, or at the root if it is shorter. */
  lemma {:induction false} AncestorExactly(t: Tree, n: nat, levels: nat)
    ensures var chain := Chain(t, n);
      Ancestor(t, n, levels) == chain[if levels < |chain| then levels else |chain| - 1]
    decreases levels
  {
    if levels > 0 && n in t.parent {
      AncestorExactly(t, t.parent[n], levels - 1);
    }
  }
}
