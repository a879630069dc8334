# Highway path planner: a Dafny model

This project models the core of a highway path planner for a simulated car
on a three-lane road. Each message from the simulator is one tick. On each tick
the planner:

- works out which lane the car is in;
- keeps a small memory of how long the car has been in that lane;
- puts the sensed cars into lane buckets and finds the nearest car ahead of
  and behind the car in each lane;
- costs the driving states the car can move to next: Keep Lane (KL), Lane
  Change Left (LCL) and Lane Change Right (LCR);
- takes the first cheapest state, then brakes or speeds up the reference
  speed;
- builds the next path: it keeps the previous path and tops it up with points
  sampled from a spline through five anchors.

The model also covers the map lookups the planner relies on
(`ClosestWaypoint`, `NextWaypoint`, `getFrenet`, `getXY`) and the frame
extractor `hasData`.

Modules:

- `Wrappers`: the `Option` type.
- `Geometry`: points and the abstract floating-point primitives. The
  primitives are `sqrt`, `atan2`, `cos`, `sin`, pi, the spline and the
  division of doubles. They are a `Primitives` value passed to every operation
  that uses them, and nothing is assumed about them unless a lemma's
  `requires` says so (for example `SqrtNonNegative`, `ExactDivision` or
  `RotationAt`). Doubles are `real`.
- `Vehicles`: the driving `State`, the lane index, the successor states and
  the `Vehicle` class with its mutable lane, state and front-distance fields.
- `RoadMap`: the waypoint map as three parallel sequences, and the four
  lookups. The lookups that loop are methods proved against functions.
- `Message`: `std::string::find`, `find_first_of` and `substr`, with
  `size_t` wrap-around, and `hasData` built on them.
- `Behavior`: gap scans, the three costs with infinite costs for a zero gap,
  the first-minimum selection, and the decision with its properties.
- `Trajectory`: the reference pose, the five anchors, the frame changes and
  the filling of the path.
- `Planner`: the lane memory, the speed ramp, the buckets, the whole tick as
  the function `PlanTick`, and the class `PathPlanner`. Its method `Step`
  holds the four values the message handler keeps across ticks:
  `keep_duration`, `ego_lane_pre`, `lane` and `ref_vel`.

The imperative parts of the source are methods with loops, and each is proved
equal to a specification function:

- the argmin loop of `ClosestWaypoint`;
- the loop that accumulates `s` in `getFrenet`;
- the segment search of `getXY`;
- the counting loop of `find_lane`;
- the bucketing and gap-scan loops;
- the cost loop over the successor states;
- the fill loop of the path.

The properties are then stated and proved about those functions.

Some of the methods above are split into smaller steps, each with a
contract that ties it to the function it computes:

- `FrenetBetween` calls `Project` and `OffsetFrom`.
- `BuildPath` calls `ReferencePose`, `Anchors` (which calls
  `ContinuityPoints` and `AheadPoints`) and `FillPath` (which calls
  `SplinePoint`).
- `ChooseBehaviour` uses the lemma `DecideIsCheapest` to unfold `Decide`.

These steps state nothing beyond the function they compute, so they have no
row of their own below.

Behaviour of the code that the model keeps as written:

- The path holds 49 points, or all of the previous path when 49 or more
  points are left. The comment at src/main.cpp:582 says 50 points, but the
  fill loop starts at `i = 1` and stops before `50 - prev_size`.
- Nothing guards the costs against a zero gap. A car exactly level with the
  ego car makes the division by zero give an infinite cost
  (`Cost.Infinite`), and that candidate is then never cheaper than another.
- `ref_vel` has no lower clamp. Braking is 0.336 per tick, and accelerating
  can overshoot 49.5 up to 49.724.
- `NextWaypoint` moves on to the next waypoint when the heading differs
  from the direction of the closest waypoint by more than pi/4.
- `getXY` does not reduce `s` modulo the track length `max_s`.
- `car_yaw` is given to `cos` and `sin` in degrees for the first continuity
  anchor, although it is converted to radians for the reference yaw.
- `keep_duration` compares `ego_lane_pre` with the lane the car is in
  (`ego.lane`), not with the lane the planner chose on the previous tick.
- The decision uses the car's own `s`, because the ego vehicle is built
  before `car_s` is moved to the end of the previous path. Only the
  trajectory uses `end_path_s`.
- With a car 10 ahead in the middle lane and empty side lanes, the car
  changes to the left lane with `too_close` false (`DecideBlockedMiddleLane`).

## Model

| member | source | states |
|---|---|---|
| Vehicles.OrdinalIsBijective | src/vehicle.h:7-11 | The three states KL=0, LCL=1, LCR=2 are distinct values and cover 0..2. |
| Vehicles.LaneIndex | src/vehicle.cpp:34-46 | The lane `find_lane` settles on is 0 or one of the `n` lanes, and a lane other than 0 holds `d` (`i*w <= d < (i+1)*w`). |
| Vehicles.InLaneIsFloor | src/vehicle.cpp:41 | `d` is in lane `i` (`i*w <= d < (i+1)*w`) exactly when `i` is the floor of `d / w`. |
| Vehicles.LaneIndexStep | src/vehicle.cpp:37-46 | One more iteration of the `find_lane` loop sets the lane to `i` when `d` is in lane `i`, and otherwise keeps it. |
| Vehicles.LaneIndexOnRoad | src/vehicle.cpp:37-46 | For `0 <= d < n*w` the lane is in `[0, n)`, `d` lies in it, and it is the only lane that holds `d`. |
| Vehicles.LaneIndexOffRoad | src/vehicle.cpp:37-48 | For `d < 0` or `d >= n*w` the lane stays 0 and is not clamped to the last lane. |
| Vehicles.LaneIndexInRange | src/vehicle.cpp:34-55 | For `n >= 1` the lane is always in `[0, n)`. |
| Vehicles.LaneCentres | src/vehicle.cpp:41 | With width 4 and 3 lanes, `find_lane(2+4k)` gives `k` for each lane `k`. These are the lane centres the planner aims at. |
| Vehicles.Successors | src/vehicle.cpp:59-82 | KL is always first; the states are in the order KL, LCL, LCR with no repeat; from KL, LCL is present iff `lane > 0` and LCR iff `lane < 2`; from LCL or LCR the result is `[KL]`. |
| Vehicles.SuccessorsCount | src/vehicle.cpp:67-78 | From KL there are 3 successors in the middle lane and 2 in each outer lane. |
| Vehicles.SuccessorPositions | src/vehicle.cpp:67-78 | From KL, LCL is exactly the second entry when `lane > 0`, and LCR is exactly the last when `lane < 2`. |
| Vehicles.Vehicle.constructor | src/vehicle.cpp:13-28 | Stores id, x, y, s, d, v and the state (default KL); sets the lane as `find_lane(d)` with the defaults, so it is in 0..2; sets the three front distances to 999. |
| Vehicles.Vehicle.FindLane | src/vehicle.cpp:34-56 | The counting loop leaves `lane` equal to `LaneIndex(d, w, n)` and changes no other field. |
| Vehicles.Vehicle.SuccessorStates | src/vehicle.cpp:59-82 | The vector built by `push_back` is `Successors(state, lane)`. |
| Behavior.Ratio | src/main.cpp:338 | A weight divided by a gap is infinite exactly when the gap is 0, and a positive finite quotient for a positive gap. |
| Behavior.Cheaper | src/main.cpp:421-423 | The `<` of doubles that `min_element` compares with: only a finite cost is cheaper, and never than itself. `CheaperOrder` proves it a strict weak order. |
| Behavior.Plus | src/main.cpp:370-373 | A sum of costs is finite iff both terms are. Adding a non-negative cost never makes a cost cheaper, and adding a positive cost to a finite one makes it strictly dearer. |
| Behavior.CheaperOrder | src/main.cpp:421-423 | The strict order used by `min_element` is irreflexive and transitive, and costs that neither precede are equal. |
| Behavior.GapScan | src/main.cpp:324-334 | `front` is the smallest non-negative gap (9999 if none) and `back` the smallest magnitude of a negative gap (9999 if none); each is attained by some car or is 9999. |
| Behavior.KeepLaneCost | src/main.cpp:314-343 | Keeping the lane costs 0 exactly when the own lane is empty; it is infinite exactly when a car is at gap 0; otherwise it is a positive finite cost. |
| Behavior.LaneChangeCost | src/main.cpp:345-379 | With a positive keep duration, a lane change costs 0 exactly when the target lane is empty; it is infinite exactly when the target lane has a car and either a car is at gap 0 or the keep duration is 0. |
| Behavior.CandidateCost | src/main.cpp:307-418 | With a positive keep duration, a candidate (KL, LCL or LCR) is free exactly when the lane it leads to is empty. |
| Behavior.SuccessorTargets | src/main.cpp:345-414 | Every successor of KL targets a lane of the road, so its bucket exists. |
| Behavior.MinIndex | src/main.cpp:421-423 | For a non-empty list it gives an index into it; no cost there is cheaper than the one at that index; every earlier cost is strictly dearer (first minimum). |
| Behavior.Decide | src/main.cpp:305-458 | The decision is one of the KL successors, its lane is on the road, and it is too close only when the chosen lane has a car. |
| Behavior.DecideLane | src/main.cpp:425-458 | The chosen state is a successor; the new lane is the ego lane, the lane to its left or the lane to its right as the state says, and is in 0..2. |
| Behavior.DecideTooClose | src/main.cpp:425-458 | `too_close` holds iff the chosen lane has a car and the nearest gap ahead is below 30. The stored 999 of an empty lane never triggers it. |
| Behavior.DecideTieBreak | src/main.cpp:421-458 | The car keeps its lane iff no candidate is cheaper than KL. A lane change is chosen only when strictly cheaper than KL, and LCR only when strictly cheaper than LCL (ties go to the earlier state). |
| Behavior.LaneChangeCostNonNegative | src/main.cpp:345-414 | With a positive keep duration, a lane-change cost is never below 0. |
| Behavior.DecideOwnLaneEmpty | src/main.cpp:318-458 | An empty own lane costs 0 for KL, so the car keeps its lane and `too_close` is false. |
| Behavior.DecideEmptyRoad | src/main.cpp:307-458 | With no cars at all the decision is KL in the ego lane, not too close. |
| Behavior.DecideBlockedMiddleLane | src/main.cpp:307-458 | In the middle lane with a car 10 ahead and empty side lanes, the car changes to the left lane (the first zero-cost candidate) and is not too close. |
| Behavior.KeepLaneCostOrdering | src/main.cpp:314-338 | Of two occupied lanes, the one whose nearest car ahead is farther is strictly cheaper to keep, including against an infinite cost at gap 0. |
| Behavior.LaneChangeCostOrdering | src/main.cpp:345-373 | Of two occupied target lanes whose nearest cars behind are equally far, the one whose nearest car ahead is farther is strictly cheaper to change into. |
| Behavior.SingleCarGaps | src/main.cpp:324-334 | One car at gap `g >= 0` gives `front == g` and `back == 9999`. |
| Behavior.LaneChangeReluctance | src/main.cpp:370-373 | The longer the car has kept its lane, the cheaper a lane change into an occupied lane with a non-zero front gap. |
| Behavior.RecencyPenaltyBound | src/main.cpp:370-373 | With `keep_duration >= 0.01` the penalty `1.5 / keep_duration` is defined, positive and at most 150. |
| Behavior.ScanBucket | src/main.cpp:317-334 | The scan loop over one bucket returns the front and back gaps `GapScan` defines. |
| Message.SizeT | src/main.cpp:35 | `size_t` arithmetic wraps modulo 2^64: a value in range is itself, and a negative one gains 2^64. |
| Message.Find | src/main.cpp:30 | `find` returns the first occurrence at or after the start, or `npos` (None) when there is none. |
| Message.FindFirstOf | src/main.cpp:31-32 | `find_first_of` of one character returns its first index, or `npos` (None). |
| Message.Substr | src/main.cpp:35 | `substr(pos, count)` is the slice from `pos` of length `count`, cut at the end of the string. |
| Message.HasData | src/main.cpp:29-39 | A non-empty result means no `"null"` occurs, and the result is a slice of the input starting at its first `[`. |
| Message.HasDataEmpty | src/main.cpp:29-39 | The result is `""` whenever `"null"` occurs anywhere, or `[` or `}` is missing. |
| Message.HasDataFrame | src/main.cpp:29-39 | With `[` at `b1` no later than `}` at `b2`, the result is the slice from `b1` of length `b2-b1+2`, cut at the end of the string. |
| Message.HasDataWrapped | src/main.cpp:29-39 | When `}` comes before `[`, the length wraps to a huge `size_t`: the result is `"["`, `""` or the whole tail from `[`. |
| Message.HasDataExtractsEvent | src/main.cpp:29-39 | For a frame `prefix[body}]` whose prefix holds no bracket and whose body has no `}`, the extractor returns `[body}]`. |
| RoadMap.ClosestScan | src/main.cpp:45-66 | The minimum distance (capped at 100000) and the first index that attains it with strict `<`; the index is 0 when the map is empty or nothing is nearer than 100000. |
| RoadMap.ClosestWaypoint | src/main.cpp:45-66 | The argmin loop returns the `ClosestScan` index, which is within the map when the map is non-empty. |
| RoadMap.NextIndex | src/main.cpp:68-91 | The next waypoint is the closest one or the one after it, wrapping to 0, and is within the map. |
| RoadMap.NextWaypoint | src/main.cpp:68-91 | The method returns `NextIndex`, which is in `[0, size)`. |
| RoadMap.PrevIndex | src/main.cpp:98-103 | `prev_wp` is within the map and is the waypoint just before `next_wp`: `next_wp-1`, or the last index when `next_wp` is 0. |
| RoadMap.SegmentSum | src/main.cpp:129-134 | With non-negative square roots, the sum of the segment lengths before `prev_wp` is non-negative. |
| RoadMap.FrenetOnSegment | src/main.cpp:105-138 | With non-negative square roots, the s of `getFrenet` is at least the arc length up to `prev_wp`. |
| RoadMap.GetFrenet | src/main.cpp:94-140 | The (s, d) pair is `FrenetOnSegment` on the segment from `PrevIndex(next)` to `next`. |
| RoadMap.FrenetBetween | src/main.cpp:105-136 | The projection, signed offset and accumulated s give `FrenetOnSegment`. |
| RoadMap.ArcLength | src/main.cpp:129-134 | The accumulating loop gives the sum of the segment lengths up to `prev_wp`. |
| RoadMap.SegmentSumMonotone | src/main.cpp:129-134 | With non-negative square roots, the accumulated s is non-negative and non-decreasing in `prev_wp`. |
| RoadMap.FrenetSIsArcLength | src/main.cpp:129-136 | The s of `getFrenet` is at least the arc length up to `prev_wp`, and that arc length grows with `prev_wp`. |
| RoadMap.FirstAtLeast | src/main.cpp:145-150 | The index of the first waypoint whose s is at least `s`, or the size when there is none. |
| RoadMap.Bracket | src/main.cpp:145-150 | The `prev_wp` the search ends with is in `[-1, n)`; every waypoint up to it has s below `s`, and the next one (if any) has s at least `s`. |
| RoadMap.SegmentSearch | src/main.cpp:145-150 | The search loop stops at `Bracket(s, maps_s)`; every waypoint up to it has s below `s`, and the next one (if any) has s at least `s`. |
| RoadMap.BracketInsideMap | src/main.cpp:145-156 | With strictly increasing `maps_s` and `maps_s[0] < s <= maps_s[n-1]`, the search ends at the unique `i` in `[0, n-1)` with `maps_s[i] < s <= maps_s[i+1]`, and `seg_s > 0`. |
| RoadMap.BracketBeforeMap | src/main.cpp:145-150 | The search ends at -1 exactly when the map is empty or `s <= maps_s[0]`. |
| RoadMap.BracketPastMap | src/main.cpp:145-152 | Past the last waypoint the search ends at the last index, and `wp2` wraps to 0. |
| RoadMap.SegmentPoint | src/main.cpp:152-166 | At the s of the segment's first waypoint and with `d = 0`, the point is that waypoint. |
| RoadMap.XYOf | src/main.cpp:143-168 | The map point is undefined exactly when the map is empty or `s <= maps_s[0]`. |
| RoadMap.GetXY | src/main.cpp:143-168 | The method returns `XYOf`. |
| Geometry.DistanceNonNegative | src/main.cpp:41-44 | With non-negative square roots, `distance` is non-negative. |
| Trajectory.ContinuityEndsAtReference | src/main.cpp:496-532 | In both branches (fewer than two previous points, or more) the second continuity anchor is the reference point `(ref_x, ref_y)`. |
| Trajectory.AheadAnchors | src/main.cpp:535-545 | The three anchors are the `getXY` points at `s+30`, `s+60` and `s+90` on `d = 2+4*lane`, undefined exactly when the first of them is undefined. |
| Trajectory.ReferenceIsOrigin | src/main.cpp:548-556 | The reference point is the origin of the car frame. |
| Trajectory.FrameRoundTrip | src/main.cpp:548-601 | When `cos`/`sin` of the yaw lie on the unit circle, the car-frame shift and the map-frame rotation back are inverse in both orders. |
| Trajectory.CarThenMap | src/main.cpp:548-601 | Map frame to car frame and back gives the point. |
| Trajectory.MapThenCar | src/main.cpp:548-601 | Car frame to map frame and back gives the point. |
| Trajectory.ShiftToCarFrame | src/main.cpp:548-556 | The in-place rewrite of `ptsx`/`ptsy` gives each anchor in the car frame. |
| Trajectory.StepXIsSpeedShare | src/main.cpp:576-587 | With exact division, each new point advances by a positive step such that `step * target_dist == 30 * (0.02 * ref_vel / 2.24)`. |
| Trajectory.XAtIsMultiple | src/main.cpp:580-591 | The `k`-th new point's x in the car frame is `k * step`. |
| Trajectory.NewPointsAt | src/main.cpp:580-606 | The `k`-th appended point is the new point for `i = k + 1`. |
| Trajectory.FillCount | src/main.cpp:583 | Kept plus appended points total 49, or the previous size when that is at least 49. |
| Trajectory.SplineAnchors | src/main.cpp:491-556 | Five car-frame anchors, undefined exactly when an anchor ahead lies before the first waypoint. |
| Trajectory.SplineThroughOrigin | src/main.cpp:548-562 | The spline's second anchor is the origin (0, 0). |
| Trajectory.PlannedPath | src/main.cpp:491-606 | When there is a path, it starts with the whole previous path, unchanged. |
| Trajectory.PlannedPathShape | src/main.cpp:568-606 | The output starts with the previous path unchanged and has `max(prev_size, 49)` points; there is none exactly when `getXY` fails. |
| Trajectory.NewPointOnSpline | src/main.cpp:580-601 | Taken back into the car frame, a new point lies on the spline at `x = k * step`. |
| Trajectory.PlannedPointsAreSamples | src/main.cpp:580-606 | Every point after the kept prefix is the matching spline sample. |
| Trajectory.Anchors | src/main.cpp:491-545 | The `ptsx`/`ptsy` vectors are the x and y of the two continuity anchors followed by the three anchors ahead. |
| Trajectory.FillPath | src/main.cpp:568-606 | The output is the previous path followed by `FillCount` new spline samples. |
| Trajectory.BuildPath | src/main.cpp:491-606 | The path built step by step is `PlannedPath`. |
| Planner.UpdateMemory | src/main.cpp:256-266 | After the tick, `ego_lane_pre` is the lane the car is in. |
| Planner.Ramp | src/main.cpp:477-484 | `ref_vel` drops exactly when `too_close`, by at most 0.336, and rises by at most 0.224. |
| Planner.KeepDurationCountsTicks | src/main.cpp:256-266 | After a switch into a lane and `n` more ticks in it, `keep_duration == 0.01 + 0.02 n`. |
| Planner.KeepDurationLowerBound | src/main.cpp:256-266 | `keep_duration` stays at least 0.01, and it is reset to exactly 0.01 iff the lane changed. |
| Planner.RampBounds | src/main.cpp:477-484 | Braking lowers `ref_vel` and otherwise it does not drop; it changes by at most 0.336 down and 0.224 up; `ref_vel < 49.724` is preserved. |
| Planner.RampBelowZero | src/main.cpp:477-480 | No lower clamp: braking below 0.336 gives a negative `ref_vel`. |
| Planner.RampFromRest | src/main.cpp:477-484 | From rest with the way clear, `ref_vel` after `n` ticks is `0.224 n` while below the limit. |
| Planner.LaneBucket | src/main.cpp:283-303 | A bucket is no longer than the list of sensed cars, and each of its entries is the s of a sensed car in that lane. |
| Planner.Buckets | src/main.cpp:274-303 | There are three buckets. |
| Planner.BucketsPartition | src/main.cpp:283-303 | Every sensed car lands in exactly one bucket (off-road cars in bucket 0). |
| Planner.BucketOffRoad | src/main.cpp:300-301 | No car lands in a bucket outside lanes 0..2. |
| Planner.PlanTick | src/main.cpp:252-606 | After a tick the lane is on the road, `ego_lane_pre` is the lane the car is in, and the speed drops only when the chosen lane has a car. |
| Planner.PlanTickInvariant | src/main.cpp:252-606 | A tick keeps `keep_duration >= 0.01` and both lanes in 0..2, remembers the lane the car is in, moves the lane by at most one, and aims the path at the new lane at the new speed. |
| Planner.PlanTickEmptyRoad | src/main.cpp:252-484 | With no sensed cars, the car keeps its lane and speeds up unless at 49.5. |
| Planner.PlanTickBrakes | src/main.cpp:252-484 | `ref_vel` drops exactly when the chosen lane has a car less than 30 ahead. |
| Planner.PathPlanner.constructor | src/main.cpp:208-211 | Starts in lane 1 at speed 0, remembering lane 1 for 0.01. |
| Planner.PathPlanner.Step | src/main.cpp:252-606 | The kept state and the path become `PlanTick` of the old state, and the state stays valid. |
| Planner.HandleTick | src/main.cpp:252-606 | The tick computed step by step is `PlanTick`. |
| Planner.ChooseBehaviour | src/main.cpp:274-458 | The ego car ends in the state and lane of `Decide`, and `too_close` is `Decide`'s. Its three stored front distances are those of its own lane and of the lanes left and right of it, or 999 where that lane is not a candidate. |
| Planner.CostCandidates | src/main.cpp:274-418 | The states are the KL successors and the costs are their candidate costs. Each state's stored front distance is that of its target bucket; a lane change that is not a candidate leaves its distance at 999. |
| Planner.ApplyChoice | src/main.cpp:425-458 | `too_close` iff the distance stored for the chosen state is below 30; the ego car takes the state and its lane. |
| Planner.BucketCars | src/main.cpp:274-303 | The bucketing loop puts each car into the bucket of its lane, in order. |
| Planner.EvaluateCandidates | src/main.cpp:305-418 | The cost loop gives each successor's cost. It stores the front distance of each examined lane on the ego car and leaves the distance of a lane change that is not a candidate at 999. |
| Planner.EvaluateCandidate | src/main.cpp:312-414 | One case of the switch gives the candidate's cost and stores its front distance on the ego car. |

## Left out

- The WebSocket hub, JSON parsing and serialisation, the manual-driving
  reply and `ws.send` (src/main.cpp:171, 213-250, 609-658). These are network
  and library I/O. A tick takes its telemetry as a `Telemetry` value and
  returns the path.
- Loading the map CSV (src/main.cpp:181-205). This is file I/O; the map is a
  `Waypoints` parameter. The source reads `s` as a float; the model keeps it
  as a real.
- Console output: `std::system("clear")`, every `cout`, the debug loop
  (src/main.cpp:460-475) and the off-road warning (src/vehicle.cpp:48-53).
  None of them changes state.
- `rad2deg`, `max_s`, `map_waypoints_dx/dy` and `end_path_d`.
  These are unused, or used only for values the planner never reads. The
  speed of a sensed car is kept as its components.
- The default constructor and the destructor of `Vehicle`, and its `yaw`
  field. The field is never initialised or read.
- IEEE rounding, infinities other than the cost of a zero gap, and NaN.
  Values are `real`. `sqrt`, `atan2`, `cos`, `sin`, the spline and the
  division of doubles are abstract parameters. The resampling step
  `target_dist/(.02*ref_vel/2.24)` goes through the abstract division, so a
  zero or negative `ref_vel` is not ruled out.
- The `x`/`y` vector pairs of the previous path and the output are held as
  sequences of points.
- `RoadMap.GetXY`: when `s <= maps_s[0]` the source reads index -1, which is
  undefined behaviour; the model returns None. The search also reads
  `maps_s[n]` past the end before testing the bound; the model tests the
  bound first, which does not change where the loop stops.
- `RoadMap.NextWaypoint`: requires a non-empty map. On an empty map the
  source indexes an empty vector.
- `RoadMap.GetFrenet`: requires a non-empty map, for the same reason.
