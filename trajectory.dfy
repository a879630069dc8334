/** Trajectory generation: five spline anchors (two for continuity with the
    previous path, three 30 m apart ahead in the target lane), turned into
    the car frame, a spline through them, and the previous path extended by
    points sampled on the spline at the reference speed. */
module Trajectory {
  import opened Wrappers
  import opened Geometry
  import opened RoadMap

  /** The fill loop runs `for (i = 1; i < 50 - prev_size; i++)`. */
  const PathPoints: int := 50
  /** Spacing in s of the three anchors ahead of the car. */
  const AnchorSpacing: real := 30.0
  /** The horizon in car-frame x over which the speed is spread. */
  const TargetX: real := 30.0
  /** The simulator visits one point every 0.02 s. */
  const Tick: real := 0.02
  /** Miles per hour per metre per second, as the source rounds it. */
  const MphPerMps: real := 2.24

  /** The reference pose: the origin and heading of the car frame. */
  datatype Pose = Pose(x: real, y: real, yaw: real)

  /** The `d` of the centre of lane `lane`. */
  function LaneCentre(lane: int): real
  {
    (2 + 4 * lane) as real
  }

  // ---------------------------------------------------------------------
  // Anchors

  /** The reference pose: the car itself (heading converted from degrees)
      when fewer than two previous points are left, otherwise the last
      previous point heading away from the one before it. */
  function Reference(g: Primitives, carX: real, carY: real, carYaw: real, prev: seq<Point>): (r: Pose)
    ensures |prev| < 2 ==> r == Pose(carX, carY, Deg2Rad(g, carYaw))
    ensures 2 <= |prev| ==> Point(r.x, r.y) == prev[|prev| - 1]
  {
    if |prev| < 2 then
      Pose(carX, carY, Deg2Rad(g, carYaw))
    else
      var last := prev[|prev| - 1];
      var before := prev[|prev| - 2];
      Pose(last.x, last.y, g.atan2(last.y - before.y, last.x - before.x))
  }

  /** The two anchors that make the path tangent to where the car is
      heading. With fewer than two previous points the first is one unit
      behind the car along `car_yaw`, which the source passes to `cos` and
      `sin` in degrees. */
  function ContinuityAnchors(g: Primitives, carX: real, carY: real, carYaw: real, prev: seq<Point>): (r: seq<Point>)
    ensures |r| == 2
    ensures 2 <= |prev| ==> r == prev[|prev| - 2..]
    ensures |prev| < 2 ==> r == [Point(carX - g.cos(carYaw), carY - g.sin(carYaw)), Point(carX, carY)]
  {
    if |prev| < 2 then
      [Point(carX - g.cos(carYaw), carY - g.sin(carYaw)), Point(carX, carY)]
    else
      [prev[|prev| - 2], prev[|prev| - 1]]
  }

  /** The second continuity anchor is the origin of the reference pose. */
  lemma ContinuityEndsAtReference(g: Primitives, carX: real, carY: real, carYaw: real, prev: seq<Point>)
    ensures var ref := Reference(g, carX, carY, carYaw, prev);
            ContinuityAnchors(g, carX, carY, carYaw, prev)[1] == Point(ref.x, ref.y)
  {
  }

  /** The three anchors 30, 60 and 90 m ahead of `s` on the centre of
      `lane`; None when `getXY` would read before the first waypoint. */
  function AheadAnchors(m: Waypoints, g: Primitives, s: real, lane: int): (r: Option<seq<Point>>)
    requires m.WellFormed()
    ensures r.None? <==> m.Size() == 0 || s + AnchorSpacing <= m.ss[0]
    ensures r.Some? ==> |r.value| == 3
    ensures r.Some? ==> forall k :: 0 <= k < 3 ==>
              XYOf(s + AnchorSpacing * (k + 1) as real, LaneCentre(lane), m, g) == Some(r.value[k])
  {
    var w0 := XYOf(s + 30.0, LaneCentre(lane), m, g);
    var w1 := XYOf(s + 60.0, LaneCentre(lane), m, g);
    var w2 := XYOf(s + 90.0, LaneCentre(lane), m, g);
    if w0.None? || w1.None? || w2.None? then None else Some([w0.value, w1.value, w2.value])
  }

  // ---------------------------------------------------------------------
  // Frames

  /** Map frame to car frame: shift to the reference point, rotate by
      `0 - yaw`. */
  function ToCarFrame(g: Primitives, p: Point, ref: Pose): Point
  {
    var shiftX := p.x - ref.x;
    var shiftY := p.y - ref.y;
    Point(shiftX * g.cos(0.0 - ref.yaw) - shiftY * g.sin(0.0 - ref.yaw),
          shiftX * g.sin(0.0 - ref.yaw) + shiftY * g.cos(0.0 - ref.yaw))
  }

  /** Car frame to map frame: rotate by `yaw`, shift back. */
  function ToMapFrame(g: Primitives, p: Point, ref: Pose): Point
  {
    Point(p.x * g.cos(ref.yaw) - p.y * g.sin(ref.yaw) + ref.x,
          p.x * g.sin(ref.yaw) + p.y * g.cos(ref.yaw) + ref.y)
  }

  /** What the two rotations need of `cos` and `sin` at the reference
      heading: evenness of cosine, oddness of sine and cos^2 + sin^2 = 1. */
  predicate RotationAt(g: Primitives, yaw: real)
  {
    g.cos(0.0 - yaw) == g.cos(yaw) && g.sin(0.0 - yaw) == -g.sin(yaw)
    && g.cos(yaw) * g.cos(yaw) + g.sin(yaw) * g.sin(yaw) == 1.0
  }

  /** The reference point is the origin of the car frame. */
  lemma ReferenceIsOrigin(g: Primitives, ref: Pose)
    ensures ToCarFrame(g, Point(ref.x, ref.y), ref) == Point(0.0, 0.0)
  {
  }

  /** The two frame changes are inverse to each other, both ways round. */
  lemma FrameRoundTrip(g: Primitives, p: Point, ref: Pose)
    requires RotationAt(g, ref.yaw)
    ensures ToMapFrame(g, ToCarFrame(g, p, ref), ref) == p
    ensures ToCarFrame(g, ToMapFrame(g, p, ref), ref) == p
  {
    CarThenMap(g, p, ref);
    MapThenCar(g, p, ref);
  }

  lemma CarThenMap(g: Primitives, p: Point, ref: Pose)
    requires RotationAt(g, ref.yaw)
    ensures ToMapFrame(g, ToCarFrame(g, p, ref), ref) == p
  {
    var c, s := g.cos(ref.yaw), g.sin(ref.yaw);
    var sx, sy := p.x - ref.x, p.y - ref.y;
    var q := ToCarFrame(g, p, ref);
    assert q == Point(sx * c + sy * s, -sx * s + sy * c);
    RotateBack(c, s, sx, sy);
  }

  lemma MapThenCar(g: Primitives, p: Point, ref: Pose)
    requires RotationAt(g, ref.yaw)
    ensures ToCarFrame(g, ToMapFrame(g, p, ref), ref) == p
  {
    var c, s := g.cos(ref.yaw), g.sin(ref.yaw);
    var q := ToMapFrame(g, p, ref);
    assert q.x - ref.x == p.x * c - p.y * s && q.y - ref.y == p.x * s + p.y * c;
    RotateBack(c, -s, p.x, p.y);
  }

  /** Rotating by an angle and back is the identity. */
  lemma RotateBack(c: real, s: real, x: real, y: real)
    requires c * c + s * s == 1.0
    ensures (x * c + y * s) * c - (-x * s + y * c) * s == x
    ensures (x * c + y * s) * s + (-x * s + y * c) * c == y
  {
    calc {
      (x * c + y * s) * c - (-x * s + y * c) * s;
      x * (c * c + s * s);
      x;
    }
    calc {
      (x * c + y * s) * s + (-x * s + y * c) * c;
      y * (c * c + s * s);
      y;
    }
  }

  /** The anchors in the car frame, element by element. */
  function CarFrame(g: Primitives, pts: seq<Point>, ref: Pose): (r: seq<Point>)
    ensures |r| == |pts|
    ensures forall i :: 0 <= i < |pts| ==> r[i] == ToCarFrame(g, pts[i], ref)
  {
    seq(|pts|, i requires 0 <= i < |pts| => ToCarFrame(g, pts[i], ref))
  }

  function Xs(pts: seq<Point>): (r: seq<real>)
    ensures |r| == |pts| && forall i :: 0 <= i < |pts| ==> r[i] == pts[i].x
  {
    seq(|pts|, i requires 0 <= i < |pts| => pts[i].x)
  }

  function Ys(pts: seq<Point>): (r: seq<real>)
    ensures |r| == |pts| && forall i :: 0 <= i < |pts| ==> r[i] == pts[i].y
  {
    seq(|pts|, i requires 0 <= i < |pts| => pts[i].y)
  }

  /** The coordinate vectors of five anchors. */
  lemma CoordinatesOfFive(pts: seq<Point>)
    requires |pts| == 5
    ensures Xs(pts) == [pts[0].x, pts[1].x, pts[2].x, pts[3].x, pts[4].x]
    ensures Ys(pts) == [pts[0].y, pts[1].y, pts[2].y, pts[3].y, pts[4].y]
  {
  }

  /** The loop that turns the anchors, held as the parallel vectors
      `ptsx` and `ptsy`, into the car frame in place. */
  method ShiftToCarFrame(g: Primitives, ptsx: seq<real>, ptsy: seq<real>, ref: Pose)
    returns (xs: seq<real>, ys: seq<real>)
    requires |ptsx| == |ptsy|
    ensures |xs| == |ys| == |ptsx|
    ensures forall i :: 0 <= i < |ptsx| ==> Point(xs[i], ys[i]) == ToCarFrame(g, Point(ptsx[i], ptsy[i]), ref)
  {
    xs, ys := ptsx, ptsy;
    var i := 0;
    while i < |xs|
      invariant 0 <= i <= |xs| && |xs| == |ys| == |ptsx|
      invariant forall j :: 0 <= j < i ==> Point(xs[j], ys[j]) == ToCarFrame(g, Point(ptsx[j], ptsy[j]), ref)
      invariant forall j :: i <= j < |xs| ==> xs[j] == ptsx[j] && ys[j] == ptsy[j]
    {
      var shiftX := xs[i] - ref.x;
      var shiftY := ys[i] - ref.y;
      xs := xs[i := shiftX * g.cos(0.0 - ref.yaw) - shiftY * g.sin(0.0 - ref.yaw)];
      ys := ys[i := shiftX * g.sin(0.0 - ref.yaw) + shiftY * g.cos(0.0 - ref.yaw)];
      i := i + 1;
    }
  }

  // ---------------------------------------------------------------------
  // Sampling the spline

  /** The straight-line distance from the car-frame origin to the spline
      point at x = 30. */
  function TargetDistance(g: Primitives, xs: seq<real>, ys: seq<real>): real
  {
    Distance(g, 0.0, 0.0, TargetX, g.spline(xs, ys, TargetX))
  }

  /** The x advance per point: 30 m split into `N` pieces, `N` being the
      number of 0.02 s ticks the target distance takes at `refVel` mph. */
  function StepX(g: Primitives, targetDist: real, refVel: real): real
  {
    g.div(TargetX, g.div(targetDist, Tick * refVel / MphPerMps))
  }

  /** With exact division, a positive speed and a positive target distance,
      the car-frame x of consecutive points grows by the fraction of 30 m
      that the car covers in one tick at `refVel`. */
  lemma StepXIsSpeedShare(g: Primitives, targetDist: real, refVel: real)
    requires ExactDivision(g)
    requires 0.0 < refVel && 0.0 < targetDist
    ensures StepX(g, targetDist, refVel) * targetDist == TargetX * (Tick * refVel / MphPerMps)
    ensures 0.0 < StepX(g, targetDist, refVel)
  {
    var v := Tick * refVel / MphPerMps;
    assert 0.0 < v;
    var n := targetDist / v;
    assert g.div(targetDist, v) == n;
    assert 0.0 < n;
    assert n * v == targetDist;
    var step := TargetX / n;
    assert StepX(g, targetDist, refVel) == step;
    assert step * n == TargetX;
    calc {
      step * targetDist;
      step * (n * v);
      (step * n) * v;
      TargetX * v;
    }
  }

  /** `x_add_on` after `k` rounds of the fill loop. */
  function XAt(step: real, k: nat): real
  {
    if k == 0 then 0.0 else XAt(step, k - 1) + step
  }

  /** The new points are evenly spaced in car-frame x: the k-th lies at
      `k * step`. */
  lemma {:induction false} XAtIsMultiple(step: real, k: nat)
    ensures XAt(step, k) == k as real * step
  {
    if k > 0 {
      XAtIsMultiple(step, k - 1);
      assert (k - 1) as real * step + step == k as real * step;
    }
  }

  /** The `k`-th new point: on the spline at `XAt(step, k)` in the car
      frame, turned back into the map frame. */
  function NewPoint(g: Primitives, xs: seq<real>, ys: seq<real>, step: real, ref: Pose, k: nat): Point
  {
    var x := XAt(step, k);
    ToMapFrame(g, Point(x, g.spline(xs, ys, x)), ref)
  }

  /** The first `count` new points. */
  function NewPoints(g: Primitives, xs: seq<real>, ys: seq<real>, step: real, ref: Pose, count: nat): (r: seq<Point>)
    ensures |r| == count
  {
    if count == 0 then [] else NewPoints(g, xs, ys, step, ref, count - 1) + [NewPoint(g, xs, ys, step, ref, count)]
  }

  /** Position `k` of the new points holds the `(k + 1)`-th. */
  lemma {:induction false} NewPointsAt(g: Primitives, xs: seq<real>, ys: seq<real>, step: real, ref: Pose, count: nat, k: nat)
    requires k < count
    ensures NewPoints(g, xs, ys, step, ref, count)[k] == NewPoint(g, xs, ys, step, ref, k + 1)
  {
    if k < count - 1 {
      NewPointsAt(g, xs, ys, step, ref, count - 1, k);
    }
  }

  /** How many points the fill loop adds after `prevSize` kept points. */
  function FillCount(prevSize: nat): (n: nat)
    ensures prevSize + n == if prevSize < PathPoints - 1 then PathPoints - 1 else prevSize
  {
    if prevSize < PathPoints - 1 then PathPoints - 1 - prevSize else 0
  }

  /** The car-frame anchors the spline is fitted through, as the parallel
      vectors `ptsx` and `ptsy`; None when an anchor ahead lies before the
      first waypoint. */
  function SplineAnchors(g: Primitives, m: Waypoints, carX: real, carY: real, refS: real, carYaw: real,
                         prev: seq<Point>, lane: int): (r: Option<(seq<real>, seq<real>)>)
    requires m.WellFormed()
    ensures r.None? <==> m.Size() == 0 || refS + AnchorSpacing <= m.ss[0]
    ensures r.Some? ==> |r.value.0| == |r.value.1| == 5
  {
    var ahead := AheadAnchors(m, g, refS, lane);
    if ahead.None? then
      None
    else
      var pts := CarFrame(g, ContinuityAnchors(g, carX, carY, carYaw, prev) + ahead.value,
                          Reference(g, carX, carY, carYaw, prev));
      Some((Xs(pts), Ys(pts)))
  }

  /** In the car frame the spline passes through the origin, the reference
      point, as its second anchor. */
  lemma SplineThroughOrigin(g: Primitives, m: Waypoints, carX: real, carY: real, refS: real, carYaw: real,
                            prev: seq<Point>, lane: int)
    requires m.WellFormed()
    requires SplineAnchors(g, m, carX, carY, refS, carYaw, prev, lane).Some?
    ensures var (xs, ys) := SplineAnchors(g, m, carX, carY, refS, carYaw, prev, lane).value;
            xs[1] == 0.0 && ys[1] == 0.0
  {
    var ref := Reference(g, carX, carY, carYaw, prev);
    ContinuityEndsAtReference(g, carX, carY, carYaw, prev);
    ReferenceIsOrigin(g, ref);
  }

  /** The planned path: None when an anchor ahead lies before the first
      waypoint, otherwise the previous path, unchanged, followed by the new
      points. */
  function PlannedPath(g: Primitives, m: Waypoints, carX: real, carY: real, refS: real, carYaw: real,
                       prev: seq<Point>, lane: int, refVel: real): (r: Option<seq<Point>>)
    requires m.WellFormed()
    ensures r.Some? ==> |prev| <= |r.value| && r.value[..|prev|] == prev
  {
    match SplineAnchors(g, m, carX, carY, refS, carYaw, prev, lane)
    case None => None
    case Some((xs, ys)) =>
      var step := StepX(g, TargetDistance(g, xs, ys), refVel);
      Some(prev + NewPoints(g, xs, ys, step, Reference(g, carX, carY, carYaw, prev), FillCount(|prev|)))
  }

  /** The previous path is kept as a prefix, and the path is topped up to 49
      points (it is never cut: 49 or more previous points are kept as they
      are); there is no path exactly when an anchor falls before the first
      waypoint. */
  lemma PlannedPathShape(g: Primitives, m: Waypoints, carX: real, carY: real, refS: real, carYaw: real,
                         prev: seq<Point>, lane: int, refVel: real)
    requires m.WellFormed()
    ensures var r := PlannedPath(g, m, carX, carY, refS, carYaw, prev, lane, refVel);
            (r.None? <==> m.Size() == 0 || refS + AnchorSpacing <= m.ss[0])
            && (r.Some? ==> |r.value| == (if |prev| < PathPoints - 1 then PathPoints - 1 else |prev|)
                            && r.value[..|prev|] == prev)
  {
    var r := PlannedPath(g, m, carX, carY, refS, carYaw, prev, lane, refVel);
    if r.Some? {
      assert r.value[..|prev|] == prev;
    }
  }

  /** A new point, taken back into the car frame, lies on the spline at
      x = `k * step`. */
  lemma {:induction false} NewPointOnSpline(g: Primitives, xs: seq<real>, ys: seq<real>, step: real, ref: Pose, k: nat)
    requires RotationAt(g, ref.yaw)
    ensures var p := ToCarFrame(g, NewPoint(g, xs, ys, step, ref, k), ref);
            p.x == k as real * step && p.y == g.spline(xs, ys, p.x)
  {
    var x := XAt(step, k);
    FrameRoundTrip(g, Point(x, g.spline(xs, ys, x)), ref);
    XAtIsMultiple(step, k);
  }

  /** Every point after the kept prefix is a new point: the `(k + 1)`-th
      sample of the spline, with `step` what `StepX` gives for the target
      distance and the reference speed. */
  lemma PlannedPointsAreSamples(g: Primitives, m: Waypoints, carX: real, carY: real, refS: real, carYaw: real,
                                prev: seq<Point>, lane: int, refVel: real, xs: seq<real>, ys: seq<real>, k: nat)
    requires m.WellFormed()
    requires SplineAnchors(g, m, carX, carY, refS, carYaw, prev, lane) == Some((xs, ys))
    requires k < FillCount(|prev|)
    ensures PlannedPath(g, m, carX, carY, refS, carYaw, prev, lane, refVel).value[|prev| + k]
            == NewPoint(g, xs, ys, StepX(g, TargetDistance(g, xs, ys), refVel), Reference(g, carX, carY, carYaw, prev), k + 1)
  {
    var ref := Reference(g, carX, carY, carYaw, prev);
    var step := StepX(g, TargetDistance(g, xs, ys), refVel);
    var news := NewPoints(g, xs, ys, step, ref, FillCount(|prev|));
    assert PlannedPath(g, m, carX, carY, refS, carYaw, prev, lane, refVel).value == prev + news;
    assert (prev + news)[|prev| + k] == news[k];
    NewPointsAt(g, xs, ys, step, ref, FillCount(|prev|), k);
  }

  // ---------------------------------------------------------------------
  // The imperative trajectory builder

  /** The five anchors in the map frame, gathered into the parallel vectors
      `ptsx` and `ptsy`; None when `getXY` fails for an anchor ahead. */
  method Anchors(g: Primitives, m: Waypoints, carX: real, carY: real, refS: real, carYaw: real,
                 prev: seq<Point>, lane: int)
    returns (r: Option<(seq<real>, seq<real>)>)
    requires m.WellFormed()
    ensures r.None? <==> AheadAnchors(m, g, refS, lane).None?
    ensures r.Some? ==>
              var pts := ContinuityAnchors(g, carX, carY, carYaw, prev) + AheadAnchors(m, g, refS, lane).value;
              r.value == (Xs(pts), Ys(pts))
  {
    var ptsx, ptsy := ContinuityPoints(g, carX, carY, carYaw, prev);
    ghost var cont := ContinuityAnchors(g, carX, carY, carYaw, prev);
    var ahead := AheadPoints(g, m, refS, lane);
    if ahead.None? {
      return None;
    }
    var wps := ahead.value;
    ptsx := ptsx + [wps[0].x, wps[1].x, wps[2].x];
    ptsy := ptsy + [wps[0].y, wps[1].y, wps[2].y];
    assert ptsx == [cont[0].x, cont[1].x, wps[0].x, wps[1].x, wps[2].x];
    assert ptsy == [cont[0].y, cont[1].y, wps[0].y, wps[1].y, wps[2].y];
    ghost var pts := cont + wps;
    assert pts == [cont[0], cont[1], wps[0], wps[1], wps[2]];
    CoordinatesOfFive(pts);
    r := Some((ptsx, ptsy));
  }

  /** The reference pose, computed as the source computes it. */
  method ReferencePose(g: Primitives, carX: real, carY: real, carYaw: real, prev: seq<Point>) returns (ref: Pose)
    ensures ref == Reference(g, carX, carY, carYaw, prev)
  {
    ref := Pose(carX, carY, Deg2Rad(g, carYaw));
    var prevSize := |prev|;
    if prevSize >= 2 {
      var refPrev := prev[prevSize - 2];
      ref := Pose(prev[prevSize - 1].x, prev[prevSize - 1].y,
                  g.atan2(prev[prevSize - 1].y - refPrev.y, prev[prevSize - 1].x - refPrev.x));
    }
  }

  /** Vectors that hold the car-frame images of `pts` element by element
      are the coordinate vectors of `CarFrame(pts)`. */
  lemma ShiftedCoordinates(g: Primitives, pts: seq<Point>, ref: Pose, xs: seq<real>, ys: seq<real>)
    requires |xs| == |ys| == |pts|
    requires forall i :: 0 <= i < |pts| ==> Point(xs[i], ys[i]) == ToCarFrame(g, Point(Xs(pts)[i], Ys(pts)[i]), ref)
    ensures xs == Xs(CarFrame(g, pts, ref)) && ys == Ys(CarFrame(g, pts, ref))
  {
    var c := CarFrame(g, pts, ref);
    forall i | 0 <= i < |pts|
      ensures xs[i] == Xs(c)[i] && ys[i] == Ys(c)[i]
    {
      assert Point(Xs(pts)[i], Ys(pts)[i]) == pts[i];
    }
  }

  /** The first two anchors, held as the parallel vectors `ptsx` and `ptsy`. */
  method ContinuityPoints(g: Primitives, carX: real, carY: real, carYaw: real, prev: seq<Point>)
    returns (ptsx: seq<real>, ptsy: seq<real>)
    ensures var cont := ContinuityAnchors(g, carX, carY, carYaw, prev);
            ptsx == [cont[0].x, cont[1].x] && ptsy == [cont[0].y, cont[1].y]
  {
    ptsx, ptsy := [], [];
    var prevSize := |prev|;
    if prevSize < 2 {
      var prevCarX := carX - g.cos(carYaw);
      var prevCarY := carY - g.sin(carYaw);
      ptsx := ptsx + [prevCarX, carX];
      ptsy := ptsy + [prevCarY, carY];
    } else {
      ptsx := ptsx + [prev[prevSize - 2].x, prev[prevSize - 1].x];
      ptsy := ptsy + [prev[prevSize - 2].y, prev[prevSize - 1].y];
    }
  }

  /** The three `getXY` calls for the anchors 30, 60 and 90 m ahead. */
  method AheadPoints(g: Primitives, m: Waypoints, refS: real, lane: int) returns (r: Option<seq<Point>>)
    requires m.WellFormed()
    ensures r == AheadAnchors(m, g, refS, lane)
  {
    var wp0 := GetXY(refS + 30.0, LaneCentre(lane), m, g);
    var wp1 := GetXY(refS + 60.0, LaneCentre(lane), m, g);
    var wp2 := GetXY(refS + 90.0, LaneCentre(lane), m, g);
    if wp0.None? || wp1.None? || wp2.None? {
      return None;
    }
    r := Some([wp0.value, wp1.value, wp2.value]);
  }

  /** Copies the previous path and appends the points sampled on the spline
      through the car-frame anchors `xs`, `ys`, until 49 points are held. */
  method FillPath(g: Primitives, xs: seq<real>, ys: seq<real>, ref: Pose, refVel: real, prev: seq<Point>)
    returns (path: seq<Point>)
    ensures path == prev + NewPoints(g, xs, ys, StepX(g, TargetDistance(g, xs, ys), refVel), ref, FillCount(|prev|))
  {
    path := [];
    var i := 0;
    while i < |prev|
      invariant 0 <= i <= |prev| && path == prev[..i]
    {
      path := path + [prev[i]];
      i := i + 1;
    }
    assert prev[..|prev|] == prev;
    var targetY := g.spline(xs, ys, TargetX);
    var targetDist := Distance(g, 0.0, 0.0, TargetX, targetY);
    ghost var step := StepX(g, TargetDistance(g, xs, ys), refVel);
    var xAddOn := 0.0;
    var k := 1;
    while k < PathPoints - |prev|
      invariant 1 <= k && (k <= PathPoints - |prev| || k == 1)
      invariant xAddOn == XAt(step, k - 1)
      invariant path == prev + NewPoints(g, xs, ys, step, ref, k - 1)
    {
      var n := g.div(targetDist, Tick * refVel / MphPerMps);
      var xPoint := xAddOn + g.div(TargetX, n);
      assert xPoint == XAt(step, k);
      xAddOn := xPoint;
      var p := SplinePoint(g, xs, ys, ref, xPoint);
      assert p == NewPoint(g, xs, ys, step, ref, k);
      path := path + [p];
      k := k + 1;
    }
    assert k - 1 == FillCount(|prev|);
  }

  /** Evaluates the spline at car-frame abscissa `x` and rotates and shifts
      the sample back into the map frame. */
  method SplinePoint(g: Primitives, xs: seq<real>, ys: seq<real>, ref: Pose, x: real) returns (p: Point)
    ensures p == ToMapFrame(g, Point(x, g.spline(xs, ys, x)), ref)
  {
    var xRef := x;
    var yRef := g.spline(xs, ys, x);
    var xPoint := xRef * g.cos(ref.yaw) - yRef * g.sin(ref.yaw);
    var yPoint := xRef * g.sin(ref.yaw) + yRef * g.cos(ref.yaw);
    p := Point(xPoint + ref.x, yPoint + ref.y);
  }

  /** The trajectory of one tick, built as the source builds it. */
  method BuildPath(g: Primitives, m: Waypoints, carX: real, carY: real, refS: real, carYaw: real,
                   prev: seq<Point>, lane: int, refVel: real)
    returns (path: Option<seq<Point>>)
    requires m.WellFormed()
    ensures path == PlannedPath(g, m, carX, carY, refS, carYaw, prev, lane, refVel)
  {
    var ref := ReferencePose(g, carX, carY, carYaw, prev);
    var anchors := Anchors(g, m, carX, carY, refS, carYaw, prev, lane);
    if anchors.None? {
      return None;
    }
    var xs, ys := ShiftToCarFrame(g, anchors.value.0, anchors.value.1, ref);
    ShiftedCoordinates(g, ContinuityAnchors(g, carX, carY, carYaw, prev) + AheadAnchors(m, g, refS, lane).value,
                       ref, xs, ys);
    assert SplineAnchors(g, m, carX, carY, refS, carYaw, prev, lane) == Some((xs, ys));
    var points := FillPath(g, xs, ys, ref, refVel, prev);
    path := Some(points);
  }
}
