/** One tick of the planner: the telemetry of the ego car and the sensed
    cars comes in; the lane memory, the chosen lane and the reference speed,
    which persist from tick to tick, are updated; the next path goes out. */
module Planner {
  import opened Wrappers
  import opened Geometry
  import opened Vehicles
  import opened Behavior
  import opened RoadMap
  import opened Trajectory

  /** One row of the sensor fusion list: id, map position, velocity and
      road coordinates of another car. */
  datatype SensedCar = SensedCar(id: int, x: real, y: real, vx: real, vy: real, s: real, d: real)

  /** The telemetry of one tick. The previous path's parallel `x` and `y`
      vectors are held as one sequence of points. */
  datatype Telemetry = Telemetry(
    carX: real, carY: real, carS: real, carD: real, carYaw: real, carSpeed: real,
    prevPath: seq<Point>, endPathS: real, endPathD: real,
    sensorFusion: seq<SensedCar>)

  /** The id the ego car is given. */
  const EgoId: int := 211
  /** `keep_duration` after a lane change, and its growth per tick in the
      same lane. */
  const InitialKeepDuration: real := 0.01
  const KeepDurationStep: real := 0.02
  /** The reference speed grows by 0.224 mph per tick below 49.5 mph and
      drops by 1.5 times that when too close. */
  const SpeedLimit: real := 49.5
  const Accel: real := 0.224
  const Brake: real := 0.336

  // ---------------------------------------------------------------------
  // Lane memory

  /** The static `keep_duration` / `ego_lane_pre` pair after a tick in which
      the ego car is in `egoLane`: the duration grows when the lane is the
      remembered one, else the lane is remembered and the duration reset. */
  function UpdateMemory(keepDuration: real, egoLanePre: int, egoLane: int): (r: (real, int))
    ensures r.1 == egoLane
  {
    if egoLanePre == egoLane then (keepDuration + KeepDurationStep, egoLanePre)
    else (InitialKeepDuration, egoLane)
  }

  /** The memory after the ego car has been in the lanes `lanes`, tick by
      tick. */
  function MemoryAfter(keepDuration: real, egoLanePre: int, lanes: seq<int>): (real, int)
  {
    if lanes == [] then (keepDuration, egoLanePre)
    else
      var (kd, pre) := MemoryAfter(keepDuration, egoLanePre, lanes[..|lanes| - 1]);
      UpdateMemory(kd, pre, lanes[|lanes| - 1])
  }

  /** `keep_duration` measures the time in the current lane: after a switch
      into lane `l` and `n` more ticks in it, it is 0.01 + 0.02 n. */
  lemma {:induction false} KeepDurationCountsTicks(keepDuration: real, egoLanePre: int, l: int, n: nat)
    requires egoLanePre != l
    ensures MemoryAfter(keepDuration, egoLanePre, seq(n + 1, _ => l))
            == (InitialKeepDuration + KeepDurationStep * n as real, l)
  {
    var lanes := seq(n + 1, _ => l);
    assert lanes[..|lanes| - 1] == seq(n, _ => l);
    if n == 0 {
      assert seq(0, _ => l) == [];
    } else {
      KeepDurationCountsTicks(keepDuration, egoLanePre, l, n - 1);
    }
  }

  /** `keep_duration` never falls below its reset value. */
  lemma KeepDurationLowerBound(keepDuration: real, egoLanePre: int, egoLane: int)
    requires InitialKeepDuration <= keepDuration
    ensures InitialKeepDuration <= UpdateMemory(keepDuration, egoLanePre, egoLane).0
    ensures UpdateMemory(keepDuration, egoLanePre, egoLane).0 == InitialKeepDuration
            <==> egoLanePre != egoLane
  {
  }

  // ---------------------------------------------------------------------
  // Reference speed

  /** The ref_vel update: brake when too close, otherwise speed up while
      below 49.5 mph. The speed drops exactly when too close, by at most
      0.336, and rises by at most 0.224. */
  function Ramp(refVel: real, tooClose: bool): (v: real)
    ensures v < refVel <==> tooClose
    ensures refVel - Brake <= v <= refVel + Accel
  {
    if tooClose then refVel - Brake
    else if refVel < SpeedLimit then refVel + Accel
    else refVel
  }

  /** Braking lowers the speed, accelerating raises it, by at most 0.336
      per tick; a speed below 49.724 stays below it. */
  lemma RampBounds(refVel: real, tooClose: bool)
    ensures var v := Ramp(refVel, tooClose);
            (tooClose ==> v < refVel) && (!tooClose ==> refVel <= v)
            && refVel - Brake <= v <= refVel + Accel
            && (refVel < SpeedLimit + Accel ==> v < SpeedLimit + Accel)
  {
  }

  /** There is no lower clamp: braking from below 0.336 mph gives a negative
      reference speed. */
  lemma RampBelowZero(refVel: real)
    requires refVel < Brake
    ensures Ramp(refVel, true) < 0.0
  {
  }

  /** From rest with the way clear, the speed after `n` ticks is
      0.224 n mph as long as that stays below 49.5 + 0.224. */
  function RampsClear(refVel: real, n: nat): real
  {
    if n == 0 then refVel else Ramp(RampsClear(refVel, n - 1), false)
  }

  lemma {:induction false} RampFromRest(n: nat)
    requires (n as real - 1.0) * Accel < SpeedLimit
    ensures RampsClear(0.0, n) == n as real * Accel
  {
    if n > 0 {
      RampFromRest(n - 1);
    }
  }

  // ---------------------------------------------------------------------
  // Lane buckets

  /** The `s` of the sensed cars whose `d` lies in lane `k`, in the order
      they were sensed: each is the `s` of a car in that lane. */
  function LaneBucket(cars: seq<SensedCar>, k: int): (b: seq<real>)
    ensures |b| <= |cars|
    ensures forall x :: x in b ==> exists i :: 0 <= i < |cars| && cars[i].s == x && LaneIndex(cars[i].d, LaneWidth, NumLanes) == k
  {
    if cars == [] then []
    else
      var last := cars[|cars| - 1];
      LaneBucket(cars[..|cars| - 1], k) + (if LaneIndex(last.d, LaneWidth, NumLanes) == k then [last.s] else [])
  }

  /** The three lane buckets. */
  function Buckets(cars: seq<SensedCar>): (b: seq<seq<real>>)
    ensures |b| == NumLanes
  {
    [LaneBucket(cars, 0), LaneBucket(cars, 1), LaneBucket(cars, 2)]
  }

  /** Every sensed car is put in exactly one bucket: the bucket sizes add
      up to the number of cars. */
  lemma {:induction false} BucketsPartition(cars: seq<SensedCar>)
    ensures |LaneBucket(cars, 0)| + |LaneBucket(cars, 1)| + |LaneBucket(cars, 2)| == |cars|
  {
    if cars != [] {
      BucketsPartition(cars[..|cars| - 1]);
      LaneIndexInRange(cars[|cars| - 1].d, LaneWidth, NumLanes);
    }
  }

  /** No car is in a bucket for a lane that is not one of the three. */
  lemma {:induction false} BucketOffRoad(cars: seq<SensedCar>, k: int)
    requires k < 0 || NumLanes <= k
    ensures LaneBucket(cars, k) == []
  {
    if cars != [] {
      BucketOffRoad(cars[..|cars| - 1], k);
      LaneIndexInRange(cars[|cars| - 1].d, LaneWidth, NumLanes);
    }
  }

  // ---------------------------------------------------------------------
  // One tick

  /** The state the planner keeps between ticks. */
  datatype Memory = Memory(keepDuration: real, egoLanePre: int, lane: int, refVel: real)

  /** The invariant of the memory: the duration is at least its reset value
      and both lanes are lanes of the road. */
  predicate MemoryValid(mem: Memory)
  {
    InitialKeepDuration <= mem.keepDuration
    && 0 <= mem.egoLanePre < NumLanes && 0 <= mem.lane < NumLanes
  }

  /** The `s` the trajectory builds from: the end of the previous path when
      there is one, else the car's own. */
  function ReferenceS(t: Telemetry): real
  {
    if |t.prevPath| > 0 then t.endPathS else t.carS
  }

  /** The memory and the path after one tick. The decision uses the car's
      own `s`, as the ego vehicle is built before `car_s` is moved to the
      end of the previous path; the trajectory uses `ReferenceS`. The new
      lane is on the road, the remembered lane is the lane the car is in, and
      the speed drops only when the chosen lane has a car. */
  function PlanTick(mem: Memory, t: Telemetry, m: Waypoints, g: Primitives): (r: (Memory, Option<seq<Point>>))
    requires m.WellFormed()
    ensures 0 <= r.0.lane < NumLanes && r.0.egoLanePre == LaneIndex(t.carD, LaneWidth, NumLanes)
    ensures r.0.refVel < mem.refVel ==> Buckets(t.sensorFusion)[r.0.lane] != []
  {
    LaneIndexInRange(t.carD, LaneWidth, NumLanes);
    var egoLane := LaneIndex(t.carD, LaneWidth, NumLanes);
    var (kd, pre) := UpdateMemory(mem.keepDuration, mem.egoLanePre, egoLane);
    var dec := Decide(egoLane, t.carS, Buckets(t.sensorFusion), kd);
    var v := Ramp(mem.refVel, dec.tooClose);
    (Memory(kd, pre, dec.lane, v),
     PlannedPath(g, m, t.carX, t.carY, ReferenceS(t), t.carYaw, t.prevPath, dec.lane, v))
  }

  /** `PlanTick` in terms of its three steps. */
  lemma PlanTickUnfold(mem: Memory, t: Telemetry, m: Waypoints, g: Primitives,
                       kd: real, pre: int, dec: Decision, v: real)
    requires m.WellFormed()
    requires (kd, pre) == UpdateMemory(mem.keepDuration, mem.egoLanePre, LaneIndex(t.carD, LaneWidth, NumLanes))
    requires 0 <= LaneIndex(t.carD, LaneWidth, NumLanes) < NumLanes
    requires dec == Decide(LaneIndex(t.carD, LaneWidth, NumLanes), t.carS, Buckets(t.sensorFusion), kd)
    requires v == Ramp(mem.refVel, dec.tooClose)
    ensures PlanTick(mem, t, m, g)
            == (Memory(kd, pre, dec.lane, v),
                PlannedPath(g, m, t.carX, t.carY, ReferenceS(t), t.carYaw, t.prevPath, dec.lane, v))
  {
  }

  /** A tick keeps the memory valid, moves the lane by at most one from the
      lane the car is in, and aims the path at the new lane. */
  lemma PlanTickInvariant(mem: Memory, t: Telemetry, m: Waypoints, g: Primitives)
    requires m.WellFormed() && MemoryValid(mem)
    ensures var (next, path) := PlanTick(mem, t, m, g);
            var egoLane := LaneIndex(t.carD, LaneWidth, NumLanes);
            MemoryValid(next) && next.egoLanePre == egoLane
            && egoLane - 1 <= next.lane <= egoLane + 1
            && path == PlannedPath(g, m, t.carX, t.carY, ReferenceS(t), t.carYaw, t.prevPath, next.lane, next.refVel)
  {
    var egoLane := LaneIndex(t.carD, LaneWidth, NumLanes);
    LaneIndexInRange(t.carD, LaneWidth, NumLanes);
    var (kd, pre) := UpdateMemory(mem.keepDuration, mem.egoLanePre, egoLane);
    KeepDurationLowerBound(mem.keepDuration, mem.egoLanePre, egoLane);
    DecideLane(egoLane, t.carS, Buckets(t.sensorFusion), kd);
  }

  /** With no other car sensed the car keeps its lane and speeds up to the
      limit. */
  lemma PlanTickEmptyRoad(mem: Memory, t: Telemetry, m: Waypoints, g: Primitives)
    requires m.WellFormed() && t.sensorFusion == []
    ensures var next := PlanTick(mem, t, m, g).0;
            next.lane == LaneIndex(t.carD, LaneWidth, NumLanes)
            && next.refVel == (if mem.refVel < SpeedLimit then mem.refVel + Accel else mem.refVel)
  {
    var egoLane := LaneIndex(t.carD, LaneWidth, NumLanes);
    LaneIndexInRange(t.carD, LaneWidth, NumLanes);
    var kd := UpdateMemory(mem.keepDuration, mem.egoLanePre, egoLane).0;
    assert Buckets([]) == [[], [], []];
    DecideEmptyRoad(egoLane, t.carS, kd);
  }

  /** The reference speed drops exactly when the lane chosen has a car less
      than 30 ahead of the ego car. */
  lemma PlanTickBrakes(mem: Memory, t: Telemetry, m: Waypoints, g: Primitives)
    requires m.WellFormed()
    ensures var next := PlanTick(mem, t, m, g).0;
            var ss := Buckets(t.sensorFusion)[next.lane];
            next.refVel < mem.refVel <==> ss != [] && FrontGap(ss, t.carS) < TooCloseGap
  {
    var egoLane := LaneIndex(t.carD, LaneWidth, NumLanes);
    LaneIndexInRange(t.carD, LaneWidth, NumLanes);
    var kd := UpdateMemory(mem.keepDuration, mem.egoLanePre, egoLane).0;
    DecideTooClose(egoLane, t.carS, Buckets(t.sensorFusion), kd);
  }

  /** The planner with the state its message handler keeps across ticks:
      the static lane memory and the captured `lane` and `ref_vel`. */
  class PathPlanner {
    var keepDuration: real
    var egoLanePre: int
    var lane: int
    var refVel: real

    /** The kept state as a value. */
    function Snapshot(): Memory
      reads this
    {
      Memory(keepDuration, egoLanePre, lane, refVel)
    }

    ghost predicate Valid()
      reads this
    {
      MemoryValid(Snapshot())
    }

    /** Start in lane 1 at rest, remembering lane 1 for 0.01. */
    constructor ()
      ensures Snapshot() == Memory(InitialKeepDuration, 1, 1, 0.0)
      ensures Valid()
    {
      keepDuration := InitialKeepDuration;
      egoLanePre := 1;
      lane := 1;
      refVel := 0.0;
    }

    /** One tick of the message handler: returns the next path and updates
      the kept state, as `PlanTick` says. */
    method Step(t: Telemetry, m: Waypoints, g: Primitives) returns (path: Option<seq<Point>>)
      requires m.WellFormed() && Valid()
      modifies this
      ensures (Snapshot(), path) == PlanTick(old(Snapshot()), t, m, g)
      ensures Valid()
    {
      var mem := Snapshot();
      var next;
      next, path := HandleTick(mem, t, m, g);
      keepDuration, egoLanePre, lane, refVel := next.keepDuration, next.egoLanePre, next.lane, next.refVel;
      PlanTickInvariant(mem, t, m, g);
    }
  }

  /** The body of the message handler on the kept state `mem`: builds the
      ego vehicle, updates the lane memory, chooses the behaviour, ramps the
      reference speed and builds the path. */
  method HandleTick(mem: Memory, t: Telemetry, m: Waypoints, g: Primitives) returns (next: Memory, path: Option<seq<Point>>)
    requires m.WellFormed()
    ensures (next, path) == PlanTick(mem, t, m, g)
  {
    var kd, pre, v := mem.keepDuration, mem.egoLanePre, mem.refVel;
    var prevSize := |t.prevPath|;
    var ego := new Vehicle(EgoId, t.carX, t.carY, t.carS, t.carD, t.carSpeed);
    ghost var egoLane := ego.lane;
    assert egoLane == LaneIndex(t.carD, LaneWidth, NumLanes);
    if pre == ego.lane {
      kd := kd + KeepDurationStep;
    } else {
      pre := ego.lane;
      kd := InitialKeepDuration;
    }
    assert (kd, pre) == UpdateMemory(mem.keepDuration, mem.egoLanePre, egoLane);

    var carS := t.carS;
    if prevSize > 0 {
      carS := t.endPathS;
    }
    assert carS == ReferenceS(t);

    var tooClose := ChooseBehaviour(ego, t.sensorFusion, kd, g);
    var newLane := ego.lane;
    ghost var dec := Decide(egoLane, t.carS, Buckets(t.sensorFusion), kd);
    assert newLane == dec.lane && tooClose == dec.tooClose;

    if tooClose {
      v := v - Brake;
    } else if v < SpeedLimit {
      v := v + Accel;
    }
    assert v == Ramp(mem.refVel, dec.tooClose);

    path := BuildPath(g, m, t.carX, t.carY, carS, t.carYaw, t.prevPath, newLane, v);
    next := Memory(kd, pre, newLane, v);
    PlanTickUnfold(mem, t, m, g, kd, pre, dec, v);
  }

  /** The behaviour part of a tick for the freshly built ego car: buckets
      the sensed cars, costs the successor states, takes the first cheapest
      and applies it to the ego car; returns `too_close`. */
  method ChooseBehaviour(ego: Vehicle, cars: seq<SensedCar>, keepDuration: real, g: Primitives)
    returns (tooClose: bool)
    requires 0 <= ego.lane < NumLanes && ego.state == KL
    requires ego.frontDist == ego.leftFrontDist == ego.rightFrontDist == UnsetFrontDist
    modifies ego
    ensures var dec := Decide(old(ego.lane), ego.s, Buckets(cars), keepDuration);
            ego.lane == dec.lane && ego.state == dec.state && tooClose == dec.tooClose
    ensures var lane, b := old(ego.lane), Buckets(cars);
            && ego.frontDist == StoredFront(b[lane], ego.s)
            && ego.leftFrontDist == (if 0 < lane then StoredFront(b[lane - 1], ego.s) else UnsetFrontDist)
            && ego.rightFrontDist == (if lane < NumLanes - 1 then StoredFront(b[lane + 1], ego.s) else UnsetFrontDist)
  {
    ghost var egoLane, egoS, buckets := ego.lane, ego.s, Buckets(cars);
    var states, costs := CostCandidates(ego, cars, keepDuration, g);
    ghost var front, left, right := ego.frontDist, ego.leftFrontDist, ego.rightFrontDist;
    assert front == StoredFront(buckets[egoLane], egoS);
    assert left == if 0 < egoLane then StoredFront(buckets[egoLane - 1], egoS) else UnsetFrontDist;
    assert right == if egoLane < NumLanes - 1 then StoredFront(buckets[egoLane + 1], egoS) else UnsetFrontDist;
    var bestIdx := MinIndex(costs);
    DecideIsCheapest(egoLane, egoS, buckets, keepDuration);
    var best := states[bestIdx];
    assert StoredDist(ego, best) == StoredFront(buckets[TargetLane(best, egoLane)], egoS);
    tooClose := ApplyChoice(ego, best);
    assert ego.frontDist == front && ego.leftFrontDist == left && ego.rightFrontDist == right;
  }

  /** The bucketing loop and the cost loop: the successor states of the ego
      car, their costs, and the front distances stored on the ego car. */
  method CostCandidates(ego: Vehicle, cars: seq<SensedCar>, keepDuration: real, g: Primitives)
    returns (states: seq<State>, costs: seq<Cost>)
    requires 0 <= ego.lane < NumLanes && ego.state == KL
    requires ego.frontDist == ego.leftFrontDist == ego.rightFrontDist == UnsetFrontDist
    modifies ego
    ensures ego.lane == old(ego.lane) && ego.state == KL
    ensures states == Successors(KL, ego.lane)
    ensures forall st :: st in states ==> 0 <= TargetLane(st, ego.lane) < NumLanes
    ensures costs == CandidateCosts(states, ego.lane, ego.s, Buckets(cars), keepDuration)
    ensures forall st :: st in states ==>
              StoredDist(ego, st) == StoredFront(Buckets(cars)[TargetLane(st, ego.lane)], ego.s)
    ensures ego.frontDist == StoredFront(Buckets(cars)[ego.lane], ego.s)
    ensures ego.leftFrontDist
            == if 0 < ego.lane then StoredFront(Buckets(cars)[ego.lane - 1], ego.s) else UnsetFrontDist
    ensures ego.rightFrontDist
            == if ego.lane < NumLanes - 1 then StoredFront(Buckets(cars)[ego.lane + 1], ego.s) else UnsetFrontDist
  {
    var vecLane := BucketCars(g, cars);
    assert LanePositions(vecLane) == Buckets(cars);
    states := ego.SuccessorStates();
    SuccessorTargets(ego.lane);
    costs := EvaluateCandidates(ego, states, vecLane, keepDuration);
  }

  /** The decision is the first cheapest successor of the Keep Lane state. */
  lemma DecideIsCheapest(egoLane: int, egoS: real, buckets: seq<seq<real>>, keepDuration: real)
    requires 0 <= egoLane < NumLanes && |buckets| == NumLanes
    ensures forall st :: st in Successors(KL, egoLane) ==> 0 <= TargetLane(st, egoLane) < NumLanes
    ensures var states := Successors(KL, egoLane);
            var best := states[MinIndex(CandidateCosts(states, egoLane, egoS, buckets, keepDuration))];
            var dec := Decide(egoLane, egoS, buckets, keepDuration);
            dec.state == best && dec.lane == TargetLane(best, egoLane)
            && dec.tooClose == (StoredFront(buckets[dec.lane], egoS) < TooCloseGap)
  {
    SuccessorTargets(egoLane);
  }

  /** The front distance stored on the ego car for a candidate state. */
  function StoredDist(ego: Vehicle, st: State): real
    reads ego
  {
    match st
    case KL => ego.frontDist
    case LCL => ego.leftFrontDist
    case LCR => ego.rightFrontDist
  }

  /** The switch on the chosen state: `too_close` when the front distance
      stored for it is below 30; the ego car takes the state and the lane
      it leads to. */
  method ApplyChoice(ego: Vehicle, st: State) returns (tooClose: bool)
    modifies ego`state, ego`lane
    ensures tooClose == (old(StoredDist(ego, st)) < TooCloseGap)
    ensures ego.state == st && ego.lane == TargetLane(st, old(ego.lane))
  {
    tooClose := false;
    match st
    case KL =>
      if ego.frontDist < TooCloseGap {
        tooClose := true;
      }
      ego.state := KL;
    case LCL =>
      if ego.leftFrontDist < TooCloseGap {
        tooClose := true;
      }
      ego.state := LCL;
      ego.lane := ego.lane - 1;
    case LCR =>
      if ego.rightFrontDist < TooCloseGap {
        tooClose := true;
      }
      ego.state := LCR;
      ego.lane := ego.lane + 1;
  }

  /** Sorts the sensed cars into the three lane buckets, creating a vehicle
      for each with the norm of its velocity as speed. */
  method BucketCars(g: Primitives, cars: seq<SensedCar>) returns (vecLane: seq<seq<Vehicle>>)
    ensures |vecLane| == NumLanes
    ensures forall k :: 0 <= k < NumLanes ==> Positions(vecLane[k]) == LaneBucket(cars, k)
  {
    vecLane := [[], [], []];
    var i := 0;
    while i < |cars|
      invariant 0 <= i <= |cars| && |vecLane| == NumLanes
      invariant forall k :: 0 <= k < NumLanes ==> Positions(vecLane[k]) == LaneBucket(cars[..i], k)
    {
      assert cars[..i + 1][..i] == cars[..i];
      var c := cars[i];
      var totalSpeed := g.sqrt(c.vx * c.vx + c.vy * c.vy);
      var curS := c.s;
      var nearCar := new Vehicle(c.id, c.x, c.y, curS, c.d, totalSpeed);
      ghost var before := vecLane;
      vecLane := vecLane[nearCar.lane := vecLane[nearCar.lane] + [nearCar]];
      forall k | 0 <= k < NumLanes
        ensures Positions(vecLane[k]) == LaneBucket(cars[..i + 1], k)
      {
        assert Positions(before[k] + [nearCar]) == Positions(before[k]) + [curS];
      }
      i := i + 1;
    }
    assert cars[..i] == cars;
  }

  /** The `s` of the vehicles of each lane bucket. */
  function LanePositions(vecLane: seq<seq<Vehicle>>): (b: seq<seq<real>>)
    ensures |b| == |vecLane|
    ensures forall k :: 0 <= k < |vecLane| ==> b[k] == Positions(vecLane[k])
  {
    seq(|vecLane|, k requires 0 <= k < |vecLane| => Positions(vecLane[k]))
  }

  /** The cost loop over the candidate states: the cost of each, in order,
      and the front distances stored on the ego car for the lanes looked at. */
  method EvaluateCandidates(ego: Vehicle, states: seq<State>, vecLane: seq<seq<Vehicle>>, keepDuration: real)
    returns (costs: seq<Cost>)
    requires 0 <= ego.lane < NumLanes && states == Successors(KL, ego.lane)
    requires |vecLane| == NumLanes
    requires ego.frontDist == ego.leftFrontDist == ego.rightFrontDist == UnsetFrontDist
    modifies ego
    ensures ego.lane == old(ego.lane) && ego.state == old(ego.state)
    ensures costs == CandidateCosts(states, ego.lane, ego.s, LanePositions(vecLane), keepDuration)
    ensures ego.frontDist == StoredFront(Positions(vecLane[ego.lane]), ego.s)
    ensures LCL in states ==> ego.leftFrontDist == StoredFront(Positions(vecLane[ego.lane - 1]), ego.s)
    ensures LCR in states ==> ego.rightFrontDist == StoredFront(Positions(vecLane[ego.lane + 1]), ego.s)
    ensures LCL !in states ==> ego.leftFrontDist == UnsetFrontDist
    ensures LCR !in states ==> ego.rightFrontDist == UnsetFrontDist
    ensures forall st :: st in states ==>
              StoredDist(ego, st) == StoredFront(LanePositions(vecLane)[TargetLane(st, ego.lane)], ego.s)
  {
    ghost var buckets := LanePositions(vecLane);
    ghost var egoLane := ego.lane;
    ghost var egoS := ego.s;
    SuccessorTargets(egoLane);
    SuccessorPositions(egoLane);
    costs := [];
    var i := 0;
    while i < |states|
      invariant 0 <= i <= |states|
      invariant ego.lane == egoLane && ego.state == old(ego.state)
      invariant |costs| == i
      invariant forall j :: 0 <= j < i ==> costs[j] == CandidateCost(states[j], egoLane, egoS, buckets, keepDuration)
      invariant ego.frontDist == if 0 < i then StoredFront(buckets[egoLane], egoS) else UnsetFrontDist
      invariant ego.leftFrontDist == if 0 < egoLane && 1 < i then StoredFront(buckets[egoLane - 1], egoS) else UnsetFrontDist
      invariant ego.rightFrontDist == if egoLane < 2 && i == |states| then StoredFront(buckets[egoLane + 1], egoS) else UnsetFrontDist
    {
      var cost := EvaluateCandidate(ego, states[i], vecLane, keepDuration);
      costs := costs + [cost];
      i := i + 1;
    }
    forall st | st in states
      ensures StoredDist(ego, st) == StoredFront(buckets[TargetLane(st, egoLane)], egoS)
    {
      var j :| 0 <= j < |states| && states[j] == st;
    }
  }

  /** One case of the cost switch, for the candidate `st`: 0 for an empty
      target lane; otherwise the nearest cars ahead and behind give the
      keep-lane or lane-change cost, and the front distance is stored on the
      ego car in the field for that candidate. */
  method EvaluateCandidate(ego: Vehicle, st: State, vecLane: seq<seq<Vehicle>>, keepDuration: real)
    returns (cost: Cost)
    requires 0 <= TargetLane(st, ego.lane) < |vecLane|
    modifies ego
    ensures ego.lane == old(ego.lane) && ego.state == old(ego.state)
    ensures cost == CandidateCost(st, ego.lane, ego.s, LanePositions(vecLane), keepDuration)
    ensures var ss := LanePositions(vecLane)[TargetLane(st, ego.lane)];
            var stored := if ss == [] then UnsetFrontDist else FrontGap(ss, ego.s);
            && ego.frontDist == (if st == KL && ss != [] then stored else old(ego.frontDist))
            && ego.leftFrontDist == (if st == LCL && ss != [] then stored else old(ego.leftFrontDist))
            && ego.rightFrontDist == (if st == LCR && ss != [] then stored else old(ego.rightFrontDist))
  {
    var ln := TargetLane(st, ego.lane);
    var cars := vecLane[ln];
    if |cars| == 0 {
      cost := Finite(0.0);
    } else {
      var front, back := ScanBucket(cars, ego.s);
      match st
      case KL =>
        ego.frontDist := front;
        cost := Ratio(KeepLaneWeight, front);
      case LCL =>
        ego.leftFrontDist := front;
        cost := Plus(Plus(Ratio(LaneChangeWeight, front), Ratio(LaneChangeWeight, back)), Ratio(RecencyWeight, keepDuration));
      case LCR =>
        ego.rightFrontDist := front;
        cost := Plus(Plus(Ratio(LaneChangeWeight, front), Ratio(LaneChangeWeight, back)), Ratio(RecencyWeight, keepDuration));
    }
  }
}
