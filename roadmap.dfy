/** The waypoint map of the track and the index logic of the conversions
    between map coordinates (x, y) and road coordinates (s, d):
    `ClosestWaypoint`, `NextWaypoint`, `getFrenet` and `getXY`. */
module RoadMap {
  import opened Wrappers
  import opened Geometry

  /** The waypoints of the track centre line, as parallel sequences of their
      x, y and s coordinates (the normal vectors the map file also holds are
      never read by the planner). */
  datatype Waypoints = Waypoints(xs: seq<real>, ys: seq<real>, ss: seq<real>)
  {
    /** Every row of the map file adds one value to each sequence. */
    predicate WellFormed()
    {
      |xs| == |ys| == |ss|
    }

    function Size(): nat
    {
      |xs|
    }
  }

  /** Road coordinates: distance along the track and signed lateral offset. */
  datatype Frenet = Frenet(s: real, d: real)

  /** The initial "closest length" of `ClosestWaypoint`: no waypoint at this
      distance or farther is ever chosen. */
  const FarAway: real := 100000.0

  /** The distance from (x, y) to every waypoint, in map order. */
  function Distances(x: real, y: real, m: Waypoints, g: Primitives): (ds: seq<real>)
    requires m.WellFormed()
    ensures |ds| == m.Size()
  {
    seq(m.Size(), i requires 0 <= i < m.Size() => Distance(g, x, y, m.xs[i], m.ys[i]))
  }

  /** The pair (closest length, closest index) after scanning `ds` from the
      left, replacing the pair only on a strictly smaller distance; it starts
      at (100000, 0). The index is the first one with the smallest distance
      below 100000, and 0 when there is none. */
  function ClosestScan(ds: seq<real>): (r: (real, nat))
    ensures r.0 <= FarAway
    ensures r.1 < |ds| || r.1 == 0
    ensures forall i :: 0 <= i < |ds| ==> r.0 <= ds[i]
    ensures r.0 < FarAway ==> r.1 < |ds| && ds[r.1] == r.0
    ensures r.0 < FarAway ==> forall i :: 0 <= i < r.1 ==> r.0 < ds[i]
    ensures r.0 == FarAway ==> r.1 == 0
  {
    if ds == [] then
      (FarAway, 0)
    else
      var last := |ds| - 1;
      var prev := ClosestScan(ds[..last]);
      if ds[last] < prev.0 then (ds[last], last) else prev
  }

  /** Index of the waypoint nearest to (x, y). */
  method ClosestWaypoint(x: real, y: real, m: Waypoints, g: Primitives) returns (closest: nat)
    requires m.WellFormed()
    ensures closest == ClosestScan(Distances(x, y, m, g)).1
    ensures closest < m.Size() || closest == 0
  {
    ghost var ds := Distances(x, y, m, g);
    var closestLen := FarAway;
    closest := 0;
    var i := 0;
    while i < |m.xs|
      invariant 0 <= i <= |m.xs|
      invariant (closestLen, closest) == ClosestScan(ds[..i])
    {
      assert ds[..i + 1][..i] == ds[..i];
      var mapX := m.xs[i];
      var mapY := m.ys[i];
      var dist := Distance(g, x, y, mapX, mapY);
      assert ds[..i + 1][i] == ds[i] == dist;
      if dist < closestLen {
        closestLen := dist;
        closest := i;
      }
      i := i + 1;
    }
    assert ds[..i] == ds;
  }

  /** The cyclic successor of a waypoint index. */
  function Succ(i: nat, n: nat): nat
  {
    if i + 1 == n then 0 else i + 1
  }

  /** The waypoint ahead of (x, y) for heading `theta`: the closest waypoint,
      or its cyclic successor when the bearing to it is more than pi/4 off the
      heading. */
  function NextIndex(x: real, y: real, theta: real, m: Waypoints, g: Primitives): (next: nat)
    requires m.WellFormed() && 0 < m.Size()
    ensures next < m.Size()
    ensures var c := ClosestScan(Distances(x, y, m, g)).1; next == c || next == Succ(c, m.Size())
  {
    var c := ClosestScan(Distances(x, y, m, g)).1;
    var heading := g.atan2(m.ys[c] - y, m.xs[c] - x);
    var angle := Abs(theta - heading);
    var angle' := Min(2.0 * g.pi - angle, angle);
    if angle' > g.pi / 4.0 then Succ(c, m.Size()) else c
  }

  /** Index of the next waypoint ahead of (x, y). */
  method NextWaypoint(x: real, y: real, theta: real, m: Waypoints, g: Primitives) returns (next: nat)
    requires m.WellFormed() && 0 < m.Size()
    ensures next == NextIndex(x, y, theta, m, g)
    ensures next < m.Size()
  {
    var closest := ClosestWaypoint(x, y, m, g);
    var mapX := m.xs[closest];
    var mapY := m.ys[closest];
    var heading := g.atan2(mapY - y, mapX - x);
    var angle := Abs(theta - heading);
    angle := Min(2.0 * g.pi - angle, angle);
    assert NextIndex(x, y, theta, m, g) == if angle > g.pi / 4.0 then Succ(closest, m.Size()) else closest;
    next := closest;
    if angle > g.pi / 4.0 {
      next := next + 1;
      if next == |m.xs| {
        next := 0;
      }
    }
  }

  /** The waypoint before `next` on the closed track. */
  function PrevIndex(next: nat, n: nat): (prev: nat)
    requires next < n
    ensures prev < n && Succ(prev, n) == next
  {
    if next == 0 then n - 1 else next - 1
  }

  /** Sum of the lengths of the first `k` segments of the track; not
      negative when square roots are not. */
  function SegmentSum(m: Waypoints, g: Primitives, k: nat): (r: real)
    requires m.WellFormed() && k < m.Size()
    ensures SqrtNonNegative(g) ==> 0.0 <= r
  {
    if k == 0 then 0.0
    else
      DistanceNonNegative(g, m.xs[k - 1], m.ys[k - 1], m.xs[k], m.ys[k]);
      SegmentSum(m, g, k - 1) + Distance(g, m.xs[k - 1], m.ys[k - 1], m.xs[k], m.ys[k])
  }

  /** The projection of the vector (xx, xy) on the segment vector (nx, ny):
      the segment vector scaled by the quotient of the two dot products. */
  function Projection(g: Primitives, xx: real, xy: real, nx: real, ny: real): Point
  {
    var projNorm := g.div(xx * nx + xy * ny, nx * nx + ny * ny);
    Point(projNorm * nx, projNorm * ny)
  }

  /** The distance from (xx, xy) to its projection `proj`, negated when
      (xx, xy) is no farther than `proj` from the centre (cx, cy). */
  function SignedOffset(g: Primitives, xx: real, xy: real, proj: Point, cx: real, cy: real): real
  {
    var offset := Distance(g, xx, xy, proj.x, proj.y);
    if Distance(g, cx, cy, xx, xy) <= Distance(g, cx, cy, proj.x, proj.y) then -offset else offset
  }

  /** The road coordinates of (x, y) projected on the segment from waypoint
      `prev` to waypoint `next`: s is the length of the first `prev` segments
      plus the length of the projection, d the distance to the projection,
      negative when (x, y) is no farther than the projection from the point
      (1000, 2000) of the map. */
  function FrenetOnSegment(x: real, y: real, m: Waypoints, g: Primitives, prev: nat, next: nat): (r: Frenet)
    requires m.WellFormed() && prev < m.Size() && next < m.Size()
    ensures SqrtNonNegative(g) ==> SegmentSum(m, g, prev) <= r.s
  {
    var nx := m.xs[next] - m.xs[prev];
    var ny := m.ys[next] - m.ys[prev];
    var xx := x - m.xs[prev];
    var xy := y - m.ys[prev];
    var proj := Projection(g, xx, xy, nx, ny);
    var d := SignedOffset(g, xx, xy, proj, 1000.0 - m.xs[prev], 2000.0 - m.ys[prev]);
    DistanceNonNegative(g, 0.0, 0.0, proj.x, proj.y);
    Frenet(SegmentSum(m, g, prev) + Distance(g, 0.0, 0.0, proj.x, proj.y), d)
  }

  /** Road coordinates of the point (x, y) heading `theta`, measured on the
      segment that ends at the next waypoint ahead. */
  method GetFrenet(x: real, y: real, theta: real, m: Waypoints, g: Primitives) returns (r: Frenet)
    requires m.WellFormed() && 0 < m.Size()
    ensures var next := NextIndex(x, y, theta, m, g);
            r == FrenetOnSegment(x, y, m, g, PrevIndex(next, m.Size()), next)
  {
    var next := NextWaypoint(x, y, theta, m, g);
    var prev: int := next as int - 1;
    if next == 0 {
      prev := |m.xs| - 1;
    }
    assert prev == PrevIndex(next, m.Size());
    r := FrenetBetween(x, y, m, g, prev, next);
  }

  /** The body of `getFrenet` once `prev_wp` and `next_wp` are known. */
  method FrenetBetween(x: real, y: real, m: Waypoints, g: Primitives, prev: nat, next: nat) returns (r: Frenet)
    requires m.WellFormed() && prev < m.Size() && next < m.Size()
    ensures r == FrenetOnSegment(x, y, m, g, prev, next)
  {
    var nx := m.xs[next] - m.xs[prev];
    var ny := m.ys[next] - m.ys[prev];
    var xx := x - m.xs[prev];
    var xy := y - m.ys[prev];
    var projX, projY := Project(g, xx, xy, nx, ny);
    var frenetD := OffsetFrom(g, xx, xy, projX, projY, 1000.0 - m.xs[prev], 2000.0 - m.ys[prev]);
    var frenetS := ArcLength(m, g, prev);
    frenetS := frenetS + Distance(g, 0.0, 0.0, projX, projY);
    r := Frenet(frenetS, frenetD);
  }

  /** The projection step of `getFrenet`. */
  method Project(g: Primitives, xx: real, xy: real, nx: real, ny: real) returns (projX: real, projY: real)
    ensures Point(projX, projY) == Projection(g, xx, xy, nx, ny)
  {
    var projNorm := g.div(xx * nx + xy * ny, nx * nx + ny * ny);
    projX := projNorm * nx;
    projY := projNorm * ny;
  }

  /** The signed `frenet_d` step of `getFrenet`. */
  method OffsetFrom(g: Primitives, xx: real, xy: real, projX: real, projY: real, centerX: real, centerY: real)
    returns (frenetD: real)
    ensures frenetD == SignedOffset(g, xx, xy, Point(projX, projY), centerX, centerY)
  {
    frenetD := Distance(g, xx, xy, projX, projY);
    var centerToPos := Distance(g, centerX, centerY, xx, xy);
    var centerToRef := Distance(g, centerX, centerY, projX, projY);
    if centerToPos <= centerToRef {
      frenetD := -frenetD;
    }
  }

  /** The `frenet_s` loop of `getFrenet`: the lengths of the segments
      between the first `prev + 1` waypoints, added up in map order. */
  method ArcLength(m: Waypoints, g: Primitives, prev: nat) returns (frenetS: real)
    requires m.WellFormed() && prev < m.Size()
    ensures frenetS == SegmentSum(m, g, prev)
  {
    frenetS := 0.0;
    var i := 0;
    while i < prev
      invariant 0 <= i <= prev
      invariant frenetS == SegmentSum(m, g, i)
    {
      frenetS := frenetS + Distance(g, m.xs[i], m.ys[i], m.xs[i + 1], m.ys[i + 1]);
      i := i + 1;
    }
  }

  /** With non-negative segment lengths, the accumulated arc length does not
      decrease with the number of segments summed. */
  lemma {:induction false} SegmentSumMonotone(m: Waypoints, g: Primitives, j: nat, k: nat)
    requires m.WellFormed() && j <= k < m.Size()
    requires SqrtNonNegative(g)
    ensures 0.0 <= SegmentSum(m, g, j) <= SegmentSum(m, g, k)
    decreases k
  {
    if k == 0 {
    } else {
      SegmentSumMonotone(m, g, if j == k then 0 else j, k - 1);
      DistanceNonNegative(g, m.xs[k - 1], m.ys[k - 1], m.xs[k], m.ys[k]);
    }
  }

  /** The s coordinate is the arc length up to the previous waypoint plus the
      length of the projection; so with non-negative distances it is at least
      that arc length, and a later previous waypoint never gives a smaller arc
      length. */
  lemma FrenetSIsArcLength(x: real, y: real, m: Waypoints, g: Primitives, prev: nat, next: nat, prev': nat)
    requires m.WellFormed() && prev < m.Size() && next < m.Size()
    requires prev <= prev' < m.Size()
    requires SqrtNonNegative(g)
    ensures SegmentSum(m, g, prev) <= FrenetOnSegment(x, y, m, g, prev, next).s
    ensures SegmentSum(m, g, prev) <= SegmentSum(m, g, prev')
  {
    SegmentSumMonotone(m, g, prev, prev');
    var p := Projection(g, x - m.xs[prev], y - m.ys[prev], m.xs[next] - m.xs[prev], m.ys[next] - m.ys[prev]);
    assert FrenetOnSegment(x, y, m, g, prev, next).s == SegmentSum(m, g, prev) + Distance(g, 0.0, 0.0, p.x, p.y);
    DistanceNonNegative(g, 0.0, 0.0, p.x, p.y);
  }

  /** The index of the first waypoint whose s is at least `s`, or the number
      of waypoints when there is none. */
  function FirstAtLeast(s: real, ms: seq<real>): (j: nat)
    ensures j <= |ms|
    ensures forall i :: 0 <= i < j ==> ms[i] < s
    ensures j < |ms| ==> s <= ms[j]
  {
    if ms == [] then 0
    else if s <= ms[0] then 0
    else 1 + FirstAtLeast(s, ms[1..])
  }

  /** The `prev_wp` the segment search of `getXY` ends with: one before the
      first waypoint whose s is at least `s`; -1 when that is waypoint 0 (the
      source then reads index -1), and the last index when there is none (the
      source then has read index n). Every waypoint up to it lies before `s`,
      and the one after it (if any) does not. */
  function Bracket(s: real, ms: seq<real>): (i: int)
    ensures -1 <= i < |ms|
    ensures forall j :: 0 <= j <= i ==> ms[j] < s
    ensures i + 1 < |ms| ==> s <= ms[i + 1]
  {
    FirstAtLeast(s, ms) - 1
  }

  /** The segment search loop of `getXY`. The source tests `s > maps_s[prev_wp+1]`
      before the bound, so on reaching the last index it reads one past the end;
      the value read cannot change where the loop stops, and the model tests
      the bound first. */
  method SegmentSearch(s: real, ms: seq<real>) returns (prev: int)
    ensures prev == Bracket(s, ms)
    ensures -1 <= prev < |ms|
    ensures forall i :: 0 <= i <= prev ==> ms[i] < s
    ensures prev + 1 < |ms| ==> s <= ms[prev + 1]
  {
    prev := -1;
    while prev < |ms| - 1 && s > ms[prev + 1]
      invariant -1 <= prev
      invariant prev <= |ms| - 1 || prev == -1
      invariant forall i :: 0 <= i <= prev ==> ms[i] < s
      invariant prev < FirstAtLeast(s, ms)
    {
      prev := prev + 1;
    }
  }

  /** Strictly increasing s along the map. */
  predicate StrictlyIncreasing(ms: seq<real>)
  {
    forall i, j :: 0 <= i < j < |ms| ==> ms[i] < ms[j]
  }

  /** Inside the map's s range the search stops at the unique segment that
      brackets `s`, and the distance along that segment is positive. */
  lemma BracketInsideMap(s: real, ms: seq<real>)
    requires StrictlyIncreasing(ms)
    requires 0 < |ms| && ms[0] < s <= ms[|ms| - 1]
    ensures var i := Bracket(s, ms);
            0 <= i < |ms| - 1 && ms[i] < s <= ms[i + 1] && 0.0 < s - ms[i]
    ensures forall i :: 0 <= i < |ms| - 1 && ms[i] < s <= ms[i + 1] ==> i == Bracket(s, ms)
  {
    var j := FirstAtLeast(s, ms);
    assert 0 < j < |ms|;
    forall i | 0 <= i < |ms| - 1 && ms[i] < s <= ms[i + 1]
      ensures i == j - 1
    {
    }
  }

  /** At or before the first waypoint's s (or on an empty map) the search
      ends at index -1, which the source goes on to read. */
  lemma BracketBeforeMap(s: real, ms: seq<real>)
    ensures Bracket(s, ms) == -1 <==> (|ms| == 0 || s <= ms[0])
  {
  }

  /** Past the last waypoint's s the search ends at the last waypoint and the
      segment continues to waypoint 0: `s` is not reduced modulo the track
      length. */
  lemma BracketPastMap(s: real, ms: seq<real>)
    requires StrictlyIncreasing(ms)
    requires 0 < |ms| && ms[|ms| - 1] < s
    ensures Bracket(s, ms) == |ms| - 1 && Succ(Bracket(s, ms), |ms|) == 0
  {
  }

  /** The map point at distance `s` along the track and offset `d` from it,
      interpolated on the segment that starts at waypoint `prev`; at the s of
      that waypoint and with no offset it is the waypoint itself. */
  function SegmentPoint(m: Waypoints, g: Primitives, prev: nat, s: real, d: real): (r: Point)
    requires m.WellFormed() && prev < m.Size()
    ensures s == m.ss[prev] && d == 0.0 ==> r == Point(m.xs[prev], m.ys[prev])
  {
    var wp2 := (prev + 1) % m.Size();
    var heading := g.atan2(m.ys[wp2] - m.ys[prev], m.xs[wp2] - m.xs[prev]);
    var segS := s - m.ss[prev];
    var segX := m.xs[prev] + segS * g.cos(heading);
    var segY := m.ys[prev] + segS * g.sin(heading);
    var perpHeading := heading - g.pi / 2.0;
    Point(segX + d * g.cos(perpHeading), segY + d * g.sin(perpHeading))
  }

  /** The map point of road coordinates (s, d): None when the search ends at
      index -1, whose waypoint does not exist. */
  function XYOf(s: real, d: real, m: Waypoints, g: Primitives): (r: Option<Point>)
    requires m.WellFormed()
    ensures r.None? <==> (m.Size() == 0 || s <= m.ss[0])
  {
    var prev := Bracket(s, m.ss);
    if prev < 0 then None else Some(SegmentPoint(m, g, prev, s, d))
  }

  /** Map coordinates of the road coordinates (s, d). */
  method GetXY(s: real, d: real, m: Waypoints, g: Primitives) returns (r: Option<Point>)
    requires m.WellFormed()
    ensures r == XYOf(s, d, m, g)
  {
    var prev := SegmentSearch(s, m.ss);
    if prev < 0 {
      return None;
    }
    var wp2 := (prev + 1) % |m.xs|;
    var heading := g.atan2(m.ys[wp2] - m.ys[prev], m.xs[wp2] - m.xs[prev]);
    var segS := s - m.ss[prev];
    var segX := m.xs[prev] + segS * g.cos(heading);
    var segY := m.ys[prev] + segS * g.sin(heading);
    var perpHeading := heading - g.pi / 2.0;
    var x := segX + d * g.cos(perpHeading);
    var y := segY + d * g.sin(perpHeading);
    r := Some(Point(x, y));
    assert wp2 == (prev + 1) % m.Size();
    assert Point(x, y) == SegmentPoint(m, g, prev, s, d);
  }
}
