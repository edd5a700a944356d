/** The order in which the children of a node are painted. */
module PaintOrder {

  predicate Comes(zs: seq<int>, i: nat, j: nat)
    requires i < |zs| && j < |zs|
  {
    zs[i] < zs[j] || (zs[i] == zs[j] && i < j)
  }

  /** All children, by z index, and those of one z index as they are listed. */
  ghost predicate Stable(zs: seq<int>, order: seq<nat>) {
    && (forall a :: 0 <= a < |order| ==> order[a] < |zs|)
    && (forall i :: 0 <= i < |zs| ==> i in order)
    && (forall a, b :: 0 <= a < b < |order| ==> Comes(zs, order[a], order[b]))
  }

  predicate NoAdjacentInversion(zs: seq<int>) {
    forall i :: 1 <= i < |zs| ==> zs[i - 1] <= zs[i]
  }

  function AsListed(n: nat): (order: seq<nat>)
    ensures |order| == n && forall i :: 0 <= i < n ==> order[i] == i
  {
    seq(n, i requires 0 <= i < n => i)
  }

  /** Inserts the last child after every child of no larger z index. */
  function Inserted(zs: seq<int>, order: seq<nat>, i: nat): seq<nat>
    requires i < |zs| && forall a :: 0 <= a < |order| ==> order[a] < |zs|
  {
    if order == [] || zs[order[|order| - 1]] <= zs[i] then order + [i]
    else Inserted(zs, order[..|order| - 1], i) + [order[|order| - 1]]
  }

  function StableSort(zs: seq<int>, n: nat): (order: seq<nat>)
    requires n <= |zs|
    ensures forall a :: 0 <= a < |order| ==> order[a] < n
  {
    if n == 0 then []
    else
      var order := StableSort(zs, n - 1);
      InsertedBounds(zs, order, n - 1);
      Inserted(zs, order, n - 1)
  }

  lemma {:induction false} InsertedBounds(zs: seq<int>, order: seq<nat>, i: nat)
    requires i < |zs| && forall a :: 0 <= a < |order| ==> order[a] < i
    ensures forall a :: 0 <= a < |Inserted(zs, order, i)| ==> Inserted(zs, order, i)[a] < i + 1
  {
    if order != [] {
      InsertedBounds(zs, order[..|order| - 1], i);
    }
  }

  /** The children are sorted only if some adjacent pair is inverted. */
  function Order(zs: seq<int>): (order: seq<nat>)
    ensures forall a :: 0 <= a < |order| ==> order[a] < |zs|
  {
    if NoAdjacentInversion(zs) then AsListed(|zs|) else StableSort(zs, |zs|)
  }

  // ----- skipping the sort changes nothing -----

  lemma {:induction false} NonDecreasing(zs: seq<int>, i: nat, j: nat)
    requires NoAdjacentInversion(zs) && i <= j < |zs|
    ensures zs[i] <= zs[j]
    decreases j
  {
    if i < j {
      NonDecreasing(zs, i, j - 1);
    }
  }

  lemma AsListedIsStable(zs: seq<int>)
    requires NoAdjacentInversion(zs)
    ensures Stable(zs, AsListed(|zs|))
  {
    var order := AsListed(|zs|);
    forall i | 0 <= i < |zs| ensures i in order {
      assert order[i] == i;
    }
    forall a, b | 0 <= a < b < |order| ensures Comes(zs, order[a], order[b]) {
      NonDecreasing(zs, a, b);
    }
  }

  ghost predicate StableUpTo(zs: seq<int>, order: seq<nat>, n: nat)
    requires n <= |zs|
  {
    && (forall a :: 0 <= a < |order| ==> order[a] < n)
    && (forall a, b :: 0 <= a < b < |order| ==> Comes(zs, order[a], order[b]))
  }

  lemma {:induction false} InsertedMembers(zs: seq<int>, order: seq<nat>, i: nat, j: nat)
    requires i < |zs| && forall a :: 0 <= a < |order| ==> order[a] < |zs|
    ensures j in Inserted(zs, order, i) <==> j in order || j == i
  {
    if order != [] && zs[order[|order| - 1]] > zs[i] {
      var n := |order| - 1;
      InsertedMembers(zs, order[..n], i, j);
      assert order == order[..n] + [order[n]];
    }
  }

  lemma {:induction false} InsertedIsStable(zs: seq<int>, order: seq<nat>, i: nat)
    requires i < |zs| && StableUpTo(zs, order, i)
    ensures StableUpTo(zs, Inserted(zs, order, i), i + 1)
  {
    if order != [] {
      var n := |order| - 1;
      if zs[order[n]] > zs[i] {
        InsertedIsStable(zs, order[..n], i);
        var front := Inserted(zs, order[..n], i);
        forall a | 0 <= a < |front| ensures Comes(zs, front[a], order[n]) {
          InsertedMembers(zs, order[..n], i, front[a]);
          assert front[a] in front;
          if front[a] != i {
            var b :| 0 <= b < n && order[..n][b] == front[a];
            assert Comes(zs, order[b], order[n]);
          }
        }
      } else {
        forall a | 0 <= a < |order| ensures Comes(zs, order[a], i) {
          assert a < n ==> Comes(zs, order[a], order[n]);
        }
      }
    }
  }

  lemma {:induction false} StableSortIsStable(zs: seq<int>, n: nat)
    requires n <= |zs|
    ensures StableUpTo(zs, StableSort(zs, n), n)
    ensures forall j: nat :: j in StableSort(zs, n) <==> j < n
  {
    if n > 0 {
      StableSortIsStable(zs, n - 1);
      InsertedIsStable(zs, StableSort(zs, n - 1), n - 1);
      forall j: nat ensures j in StableSort(zs, n) <==> j < n {
        InsertedMembers(zs, StableSort(zs, n - 1), n - 1, j);
      }
    }
  }

  /** There is only one stable order. */
  lemma {:induction false} StableIsUnique(zs: seq<int>, p: seq<nat>, q: seq<nat>)
    requires forall a :: 0 <= a < |p| ==> p[a] < |zs|
    requires forall a :: 0 <= a < |q| ==> q[a] < |zs|
    requires forall a, b :: 0 <= a < b < |p| ==> Comes(zs, p[a], p[b])
    requires forall a, b :: 0 <= a < b < |q| ==> Comes(zs, q[a], q[b])
    requires forall i: nat :: i in p <==> i in q
    ensures p == q
  {
    HasMember(p);
    HasMember(q);
    if p != [] {
      assert p[0] == q[0];
      forall i: nat ensures i in p[1..] <==> i in q[1..] {
        InTail(p, i);
        InTail(q, i);
      }
      StableIsUnique(zs, p[1..], q[1..]);
      assert p == [p[0]] + p[1..] && q == [q[0]] + q[1..];
    }
  }

  lemma HasMember(p: seq<nat>)
    ensures p == [] || p[0] in p
  {
  }

  lemma InTail(p: seq<nat>, i: nat)
    requires p != []
    ensures i in p <==> i == p[0] || i in p[1..]
  {
    assert p == [p[0]] + p[1..];
  }

  /** The order is the stable order, and the one that always sorting would give. */
  lemma SkippingTheSortKeepsOrder(zs: seq<int>)
    ensures Stable(zs, Order(zs)) && Order(zs) == StableSort(zs, |zs|)
  {
    StableSortIsStable(zs, |zs|);
    var sorted := StableSort(zs, |zs|);
    assert Stable(zs, sorted);
    if NoAdjacentInversion(zs) {
      AsListedIsStable(zs);
      forall i: nat ensures i in AsListed(|zs|) <==> i in sorted {
      }
      StableIsUnique(zs, AsListed(|zs|), sorted);
    }
  }
}
