/** Which drop zone a scene point aims at: the closest zone with a hit slop, or else the
    first usable zone on the parent chain of the node that is hit. */
module DropTargets {
  import opened Options

  type Id = nat

  datatype ZoneProps = ZoneProps(enabled: bool, accepts: seq<string>, value: string, onDrop: string)

  datatype Zone = Zone(props: ZoneProps, over: bool)

  /** Where the point lies in a zone's own coordinates. */
  datatype Spot = Spot(x: real, y: real, width: real, height: real)

  /** A registered zone as the search finds it: visible to hit tests, its slop, and for each
      ancestor whether that is visible and holds the point. */
  datatype Candidate = Candidate(zone: Id, shown: bool, slop: real, ancestors: seq<bool>, spot: Spot)

  /** What the scene answers for one point: the registered zones in the set's order and the
      chain from the hit node to the root. */
  datatype Geometry = Geometry(candidates: seq<Candidate>, hits: seq<Id>)

  predicate Usable(zones: map<Id, Zone>, dragType: string, z: Id) {
    z in zones && zones[z].props.enabled && dragType in zones[z].props.accepts
  }

  predicate WithinSlop(c: Candidate) {
    && -c.slop <= c.spot.x < c.spot.width + c.slop
    && -c.slop <= c.spot.y < c.spot.height + c.slop
  }

  predicate Eligible(zones: map<Id, Zone>, dragType: string, c: Candidate) {
    c.shown && Usable(zones, dragType, c.zone) && c.slop > 0.0 && false !in c.ancestors && WithinSlop(c)
  }

  function Outside(at: real, extent: real): real {
    if at < 0.0 then -at else if at - extent > 0.0 then at - extent else 0.0
  }

  /** The square of the distance to the zone's box. */
  function Distance(c: Candidate): real {
    var dx, dy := Outside(c.spot.x, c.spot.width), Outside(c.spot.y, c.spot.height);
    dx * dx + dy * dy
  }

  predicate Nearer(c: Candidate, d: Candidate) {
    Distance(c) < Distance(d) || (Distance(c) == Distance(d) && |c.ancestors| > |d.ancestors|)
  }

  function Closest(zones: map<Id, Zone>, dragType: string, candidates: seq<Candidate>): Option<Candidate> {
    if candidates == [] then None
    else
      var c := candidates[|candidates| - 1];
      var best := Closest(zones, dragType, candidates[..|candidates| - 1]);
      if Eligible(zones, dragType, c) && (best.None? || Nearer(c, best.value)) then Some(c) else best
  }

  function FirstUsable(zones: map<Id, Zone>, dragType: string, hits: seq<Id>): Option<Id> {
    if hits == [] then None
    else if Usable(zones, dragType, hits[0]) then Some(hits[0])
    else FirstUsable(zones, dragType, hits[1..])
  }

  function Target(zones: map<Id, Zone>, dragType: string, g: Geometry): Option<Id> {
    var closest := Closest(zones, dragType, g.candidates);
    if closest.Some? then Some(closest.value.zone) else FirstUsable(zones, dragType, g.hits)
  }

  // ----- the search -----

  method AllTrue(answers: seq<bool>) returns (all: bool)
    ensures all <==> false !in answers
  {
    for i := 0 to |answers|
      invariant false !in answers[..i]
    {
      if !answers[i] {
        return false;
      }
    }
    return true;
  }

  method FindClosest(zones: map<Id, Zone>, dragType: string, candidates: seq<Candidate>)
    returns (closest: Option<Candidate>)
    ensures closest == Closest(zones, dragType, candidates)
  {
    closest := None;
    for i := 0 to |candidates|
      invariant closest == Closest(zones, dragType, candidates[..i])
    {
      assert candidates[..i + 1][..i] == candidates[..i];
      var c := candidates[i];
      if !c.shown || !Usable(zones, dragType, c.zone) || c.slop <= 0.0 {
        continue;
      }
      var inside := AllTrue(c.ancestors);
      if !inside {
        continue;
      }
      if c.spot.x < -c.slop || c.spot.x >= c.spot.width + c.slop
         || c.spot.y < -c.slop || c.spot.y >= c.spot.height + c.slop {
        continue;
      }
      if closest.None? || Nearer(c, closest.value) {
        closest := Some(c);
      }
    }
    assert candidates[..|candidates|] == candidates;
  }

  method TargetAt(zones: map<Id, Zone>, dragType: string, g: Geometry) returns (target: Option<Id>)
    ensures target == Target(zones, dragType, g)
  {
    var closest := FindClosest(zones, dragType, g.candidates);
    if closest.Some? {
      return Some(closest.value.zone);
    }
    for i := 0 to |g.hits|
      invariant FirstUsable(zones, dragType, g.hits) == FirstUsable(zones, dragType, g.hits[i..])
    {
      assert g.hits[i..][1..] == g.hits[i + 1..];
      if Usable(zones, dragType, g.hits[i]) {
        return Some(g.hits[i]);
      }
    }
    return None;
  }

  // ----- what it finds -----

  lemma NearerIsTransitive(a: Candidate, b: Candidate, c: Candidate)
    requires !Nearer(b, a) && !Nearer(c, b)
    ensures !Nearer(c, a)
  {
  }

  /** The zone found is an eligible one, and no eligible one is nearer, or as near and
      deeper. */
  lemma {:induction false} ClosestIsNearest(zones: map<Id, Zone>, dragType: string, candidates: seq<Candidate>)
    ensures var closest := Closest(zones, dragType, candidates);
      if closest.None? then forall c :: c in candidates ==> !Eligible(zones, dragType, c)
      else
        && closest.value in candidates && Eligible(zones, dragType, closest.value)
        && forall c :: c in candidates && Eligible(zones, dragType, c) ==> !Nearer(c, closest.value)
  {
    if candidates != [] {
      var n := |candidates| - 1;
      ClosestIsNearest(zones, dragType, candidates[..n]);
      assert candidates == candidates[..n] + [candidates[n]];
      var before, after := Closest(zones, dragType, candidates[..n]), Closest(zones, dragType, candidates);
      if before.Some? && after == Some(candidates[n]) {
        forall c | c in candidates && Eligible(zones, dragType, c) ensures !Nearer(c, after.value) {
          if c in candidates[..n] {
            NearerIsTransitive(after.value, before.value, c);
          }
        }
      }
    }
  }

  /** A zone that is aimed at is enabled and accepts what is dragged. */
  lemma {:induction false} TargetIsUsable(zones: map<Id, Zone>, dragType: string, g: Geometry)
    ensures var target := Target(zones, dragType, g);
      target.Some? ==> Usable(zones, dragType, target.value)
  {
    ClosestIsNearest(zones, dragType, g.candidates);
    FirstUsableIsUsable(zones, dragType, g.hits);
  }

  /** Without a zone near enough, the first usable zone on the chain of the node that is hit. */
  lemma TargetIsFirstHit(zones: map<Id, Zone>, dragType: string, g: Geometry)
    requires forall c :: c in g.candidates ==> !Eligible(zones, dragType, c)
    ensures var target := Target(zones, dragType, g);
      if target.None? then forall k :: 0 <= k < |g.hits| ==> !Usable(zones, dragType, g.hits[k])
      else exists k :: 0 <= k < |g.hits| && g.hits[k] == target.value && Usable(zones, dragType, g.hits[k])
             && forall j :: 0 <= j < k ==> !Usable(zones, dragType, g.hits[j])
  {
    ClosestIsNearest(zones, dragType, g.candidates);
    FirstUsableIsFirst(zones, dragType, g.hits);
  }

  lemma {:induction false} FirstUsableIsFirst(zones: map<Id, Zone>, dragType: string, hits: seq<Id>)
    ensures var found := FirstUsable(zones, dragType, hits);
      if found.None? then forall k :: 0 <= k < |hits| ==> !Usable(zones, dragType, hits[k])
      else exists k :: 0 <= k < |hits| && hits[k] == found.value && Usable(zones, dragType, hits[k])
             && forall j :: 0 <= j < k ==> !Usable(zones, dragType, hits[j])
  {
    if hits != [] && !Usable(zones, dragType, hits[0]) {
      FirstUsableIsFirst(zones, dragType, hits[1..]);
      var found := FirstUsable(zones, dragType, hits[1..]);
      if found.Some? {
        var k :| 0 <= k < |hits[1..]| && hits[1..][k] == found.value && Usable(zones, dragType, hits[1..][k])
          && forall j :: 0 <= j < k ==> !Usable(zones, dragType, hits[1..][j]);
        assert hits[k + 1] == found.value && forall j :: 1 <= j < k + 1 ==> hits[j] == hits[1..][j - 1];
      } else {
        assert forall j :: 1 <= j < |hits| ==> hits[j] == hits[1..][j - 1];
      }
    }
  }

  lemma {:induction false} FirstUsableIsUsable(zones: map<Id, Zone>, dragType: string, hits: seq<Id>)
    ensures var found := FirstUsable(zones, dragType, hits);
      if found.None? then forall z :: z in hits ==> !Usable(zones, dragType, z)
      else found.value in hits && Usable(zones, dragType, found.value)
  {
    if hits != [] {
      FirstUsableIsUsable(zones, dragType, hits[1..]);
    }
  }

  // ----- what near means -----

  function NearestIn(at: real, extent: real): real { if at < 0.0 then 0.0 else if at > extent then extent else at }

  function Apart(a: real, b: real): real { if a < b then b - a else a - b }

  lemma OutsideIsLeast(at: real, extent: real, p: real)
    requires 0.0 <= p <= extent
    ensures Apart(at, p) >= Outside(at, extent) == Apart(at, NearestIn(at, extent)) >= 0.0
  {
  }

  lemma SquareGrows(a: real, b: real)
    requires 0.0 <= a <= b
    ensures a * a <= b * b
  {
    assert b * b - a * a == (b - a) * (b + a);
    assert (b - a) * (b + a) >= 0.0;
  }

  /** The distance of a candidate is that to the closest point of its box, squared. */
  lemma DistanceIsLeast(c: Candidate, px: real, py: real)
    requires 0.0 <= px <= c.spot.width && 0.0 <= py <= c.spot.height
    ensures Distance(c) <= Apart(c.spot.x, px) * Apart(c.spot.x, px) + Apart(c.spot.y, py) * Apart(c.spot.y, py)
    ensures var dx := Apart(c.spot.x, NearestIn(c.spot.x, c.spot.width));
      var dy := Apart(c.spot.y, NearestIn(c.spot.y, c.spot.height));
      Distance(c) == dx * dx + dy * dy
  {
    OutsideIsLeast(c.spot.x, c.spot.width, px);
    OutsideIsLeast(c.spot.y, c.spot.height, py);
    SquareGrows(Outside(c.spot.x, c.spot.width), Apart(c.spot.x, px));
    SquareGrows(Outside(c.spot.y, c.spot.height), Apart(c.spot.y, py));
  }

  /** The zone aimed at by nearness is shown, enabled, takes what is dragged and has a slop; all
      its ancestors hold the point, and the point lies in its box widened by the slop on all
      sides. Of all such zones it is one at the least distance, and of those at that distance
      one with the most ancestors. */
  lemma NearestExactly(zones: map<Id, Zone>, dragType: string, candidates: seq<Candidate>, d: Candidate)
    requires Closest(zones, dragType, candidates).Some?
    ensures InReach(zones, dragType, Closest(zones, dragType, candidates).value)
    ensures d in candidates && InReach(zones, dragType, d) ==>
      var c := Closest(zones, dragType, candidates).value;
      Distance(c) <= Distance(d) && (Distance(c) == Distance(d) ==> |c.ancestors| >= |d.ancestors|)
  {
    ClosestIsNearest(zones, dragType, candidates);
  }

  predicate InReach(zones: map<Id, Zone>, dragType: string, c: Candidate) {
    && c.shown && c.zone in zones && zones[c.zone].props.enabled && dragType in zones[c.zone].props.accepts
    && 0.0 < c.slop && (forall k :: 0 <= k < |c.ancestors| ==> c.ancestors[k])
    && 0.0 <= c.spot.x + c.slop && c.spot.x + c.slop < c.spot.width + 2.0 * c.slop
    && 0.0 <= c.spot.y + c.slop && c.spot.y + c.slop < c.spot.height + 2.0 * c.slop
  }

  /** If some zone is in reach, one is aimed at. */
  lemma ReachIsFound(zones: map<Id, Zone>, dragType: string, candidates: seq<Candidate>, d: Candidate)
    requires d in candidates && InReach(zones, dragType, d)
    ensures Closest(zones, dragType, candidates).Some?
  {
    ClosestIsNearest(zones, dragType, candidates);
  }
}
