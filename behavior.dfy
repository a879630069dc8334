/** The behaviour planner of one tick: lane buckets, the gap scan of a
    bucket, the cost of each candidate state, the choice of the first
    cheapest candidate, the new lane and the `too_close` flag. */
module Behavior {
  import opened Vehicles

  /** The gap assumed when no car is ahead (or behind) in a lane. */
  const NoCarGap: real := 9999.0
  /** Below this stored front distance the chosen state is too close. */
  const TooCloseGap: real := 30.0
  /** Cost weights of the source. */
  const KeepLaneWeight: real := 60.0
  const LaneChangeWeight: real := 30.0
  const RecencyWeight: real := 1.5

  /** A cost as the double it is in the source: a finite value, or the
      positive infinity a division by a zero gap produces. */
  datatype Cost = Finite(value: real) | Infinite

  /** The `<` of doubles restricted to finite values and +infinity. */
  predicate Cheaper(a: Cost, b: Cost)
    ensures Cheaper(a, b) ==> a.Finite? && a != b
  {
    match a
    case Infinite => false
    case Finite(x) => b.Infinite? || x < b.value
  }

  /** `num / den` for a positive numerator: +infinity on a zero denominator. */
  function Ratio(num: real, den: real): (c: Cost)
    requires 0.0 < num
    ensures c.Infinite? <==> den == 0.0
    ensures 0.0 < den ==> c == Finite(num / den) && 0.0 < c.value
  {
    if den == 0.0 then Infinite else Finite(num / den)
  }

  /** `+` of doubles on finite values and +infinity: adding a cost that is
      not negative never makes a cost cheaper, and adding a positive one makes
      a finite cost strictly dearer. */
  function Plus(a: Cost, b: Cost): (c: Cost)
    ensures c.Finite? <==> a.Finite? && b.Finite?
    ensures c.Finite? ==> c.value == a.value + b.value
    ensures b.Finite? && 0.0 <= b.value ==> !Cheaper(c, a)
    ensures a.Finite? && b.Finite? && 0.0 < b.value ==> Cheaper(a, c)
  {
    if a.Finite? && b.Finite? then Finite(a.value + b.value) else Infinite
  }

  /** `<` on costs is a strict weak order: irreflexive, transitive, and
      incomparable costs are equal. */
  lemma CheaperOrder(a: Cost, b: Cost, c: Cost)
    ensures !Cheaper(a, a)
    ensures Cheaper(a, b) && Cheaper(b, c) ==> Cheaper(a, c)
    ensures Cheaper(a, b) && !Cheaper(c, b) ==> Cheaper(a, c)
    ensures !Cheaper(a, b) && !Cheaper(b, a) ==> a == b
  {
  }

  // ---------------------------------------------------------------------
  // Gap scan

  /** The pair (front, back) after scanning the gaps `car.s - ego.s` of a
      bucket in order, starting from (9999, 9999): a non-negative gap below
      `front` replaces it; otherwise a negative gap whose magnitude is below
      `back` replaces `back`. */
  function GapScan(ds: seq<real>): (r: (real, real))
    ensures 0.0 <= r.0 <= NoCarGap && 0.0 < r.1 <= NoCarGap
    ensures forall i :: 0 <= i < |ds| && 0.0 <= ds[i] ==> r.0 <= ds[i]
    ensures forall i :: 0 <= i < |ds| && ds[i] < 0.0 ==> r.1 <= -ds[i]
    ensures r.0 == NoCarGap || exists i :: 0 <= i < |ds| && ds[i] == r.0
    ensures r.1 == NoCarGap || exists i :: 0 <= i < |ds| && ds[i] < 0.0 && -ds[i] == r.1
  {
    if ds == [] then
      (NoCarGap, NoCarGap)
    else
      var last := |ds| - 1;
      var prev := GapScan(ds[..last]);
      var dist := ds[last];
      assert forall i :: 0 <= i < last ==> ds[..last][i] == ds[i];
      if 0.0 <= dist && dist < prev.0 then
        (dist, prev.1)
      else if dist < 0.0 && -dist < prev.1 then
        (prev.0, -dist)
      else
        prev
  }

  /** The gaps of the cars with s-coordinates `ss` to the ego car at `egoS`. */
  function Gaps(ss: seq<real>, egoS: real): (ds: seq<real>)
    ensures |ds| == |ss|
    ensures forall i :: 0 <= i < |ss| ==> ds[i] == ss[i] - egoS
  {
    seq(|ss|, i requires 0 <= i < |ss| => ss[i] - egoS)
  }

  /** The nearest non-negative gap ahead, 9999 when no car is ahead. */
  function FrontGap(ss: seq<real>, egoS: real): real
  {
    GapScan(Gaps(ss, egoS)).0
  }

  /** The smallest magnitude of a negative gap behind, 9999 when none is. */
  function BackGap(ss: seq<real>, egoS: real): real
  {
    GapScan(Gaps(ss, egoS)).1
  }

  /** The front distance stored on the ego vehicle for a lane: set from the
      scan when the bucket has cars, left at its initial 999 otherwise. */
  function StoredFront(ss: seq<real>, egoS: real): real
  {
    if ss == [] then UnsetFrontDist else FrontGap(ss, egoS)
  }

  // ---------------------------------------------------------------------
  // Costs

  /** Keep Lane: 0 for an empty own lane, else 60 / front. Only an empty
      lane is free, and only a car at gap 0 makes the cost infinite. */
  function KeepLaneCost(ss: seq<real>, egoS: real): (c: Cost)
    ensures c == Finite(0.0) <==> ss == []
    ensures c.Infinite? <==> ss != [] && FrontGap(ss, egoS) == 0.0
    ensures c.Finite? ==> 0.0 <= c.value
  {
    if ss == [] then Finite(0.0) else Ratio(KeepLaneWeight, FrontGap(ss, egoS))
  }

  /** A lane change: 0 for an empty target lane, else
      30 / front + 30 / back + 1.5 / keepDuration. With a positive keep
      duration only an empty lane is free; the cost is infinite exactly for
      a car at gap 0 or a zero keep duration. */
  function LaneChangeCost(ss: seq<real>, egoS: real, keepDuration: real): (c: Cost)
    ensures 0.0 < keepDuration ==> (c == Finite(0.0) <==> ss == [])
    ensures c.Infinite? <==> ss != [] && (FrontGap(ss, egoS) == 0.0 || keepDuration == 0.0)
  {
    if ss == [] then Finite(0.0)
    else
      Plus(Plus(Ratio(LaneChangeWeight, FrontGap(ss, egoS)), Ratio(LaneChangeWeight, BackGap(ss, egoS))),
           Ratio(RecencyWeight, keepDuration))
  }

  /** The lane a state puts the ego car in. */
  function TargetLane(st: State, egoLane: int): int
  {
    match st
    case KL => egoLane
    case LCL => egoLane - 1
    case LCR => egoLane + 1
  }

  /** The cost of one candidate state, from the bucket of its target lane;
      with a positive keep duration it is free exactly when that lane is empty. */
  function CandidateCost(st: State, egoLane: int, egoS: real, buckets: seq<seq<real>>, keepDuration: real): (c: Cost)
    requires 0 <= TargetLane(st, egoLane) < |buckets|
    ensures 0.0 < keepDuration ==> (c == Finite(0.0) <==> buckets[TargetLane(st, egoLane)] == [])
  {
    var ss := buckets[TargetLane(st, egoLane)];
    if st == KL then KeepLaneCost(ss, egoS) else LaneChangeCost(ss, egoS, keepDuration)
  }

  /** The candidates of a Keep Lane ego car in a lane of the road stay on
      the road. */
  lemma SuccessorTargets(egoLane: int)
    requires 0 <= egoLane < NumLanes
    ensures forall st :: st in Successors(KL, egoLane) ==> 0 <= TargetLane(st, egoLane) < NumLanes
  {
  }

  /** The costs of the candidates, in candidate order. */
  function CandidateCosts(states: seq<State>, egoLane: int, egoS: real, buckets: seq<seq<real>>, keepDuration: real): (cs: seq<Cost>)
    requires forall st :: st in states ==> 0 <= TargetLane(st, egoLane) < |buckets|
    ensures |cs| == |states|
    ensures forall i :: 0 <= i < |states| ==> cs[i] == CandidateCost(states[i], egoLane, egoS, buckets, keepDuration)
  {
    seq(|states|, i requires 0 <= i < |states| => CandidateCost(states[i], egoLane, egoS, buckets, keepDuration))
  }

  // ---------------------------------------------------------------------
  // Selection

  /** `std::min_element` followed by `std::distance`: the position of the
      first cost no other cost is below; 0 for no costs (the end iterator). */
  function MinIndex(cs: seq<Cost>): (k: nat)
    ensures cs == [] ==> k == 0
    ensures cs != [] ==> k < |cs|
    ensures forall j :: 0 <= j < |cs| ==> !Cheaper(cs[j], cs[k])
    ensures forall j :: 0 <= j < k ==> Cheaper(cs[k], cs[j])
  {
    if |cs| <= 1 then
      0
    else
      var last := |cs| - 1;
      var k := MinIndex(cs[..last]);
      assert forall j :: 0 <= j < last ==> cs[..last][j] == cs[j];
      if Cheaper(cs[last], cs[k]) then
        forall j | 0 <= j < last
          ensures Cheaper(cs[last], cs[j]) && !Cheaper(cs[j], cs[last])
        {
          CheaperOrder(cs[last], cs[k], cs[j]);
          CheaperOrder(cs[j], cs[last], cs[k]);
        }
        last
      else
        k
  }

  /** The decision of one tick: the chosen state, the new lane and whether
      the chosen lane's stored front distance is below 30. */
  datatype Decision = Decision(state: State, lane: int, tooClose: bool)

  /** The behaviour planner for an ego car in lane `egoLane` at `egoS`, with
      the s-coordinates of the cars of each lane in `buckets`. The ego car is
      built in state Keep Lane, so its candidates are Keep Lane and the
      lane changes its lane allows. The state chosen is one of them, its lane
      is on the road, and only a lane with a car can be too close. */
  function Decide(egoLane: int, egoS: real, buckets: seq<seq<real>>, keepDuration: real): (r: Decision)
    requires 0 <= egoLane < NumLanes && |buckets| == NumLanes
    ensures r.state in Successors(KL, egoLane) && 0 <= r.lane < NumLanes
    ensures r.tooClose ==> buckets[r.lane] != []
  {
    SuccessorTargets(egoLane);
    var states := Successors(KL, egoLane);
    var best := states[MinIndex(CandidateCosts(states, egoLane, egoS, buckets, keepDuration))];
    var lane := TargetLane(best, egoLane);
    Decision(best, lane, StoredFront(buckets[lane], egoS) < TooCloseGap)
  }

  // ---------------------------------------------------------------------
  // Properties of the decision

  /** The chosen state is a candidate; the new lane is the ego lane, the one
      to its left or the one to its right as the state says, and on the road. */
  lemma DecideLane(egoLane: int, egoS: real, buckets: seq<seq<real>>, keepDuration: real)
    requires 0 <= egoLane < NumLanes && |buckets| == NumLanes
    ensures var r := Decide(egoLane, egoS, buckets, keepDuration);
            r.state in Successors(KL, egoLane) &&
            r.lane == TargetLane(r.state, egoLane) &&
            0 <= r.lane < NumLanes && egoLane - 1 <= r.lane <= egoLane + 1
  {
    SuccessorTargets(egoLane);
  }

  /** `too_close` holds exactly when the chosen lane has a car and the
      nearest one ahead is less than 30 ahead; an empty chosen lane never
      brakes. */
  lemma DecideTooClose(egoLane: int, egoS: real, buckets: seq<seq<real>>, keepDuration: real)
    requires 0 <= egoLane < NumLanes && |buckets| == NumLanes
    ensures var r := Decide(egoLane, egoS, buckets, keepDuration);
            r.tooClose <==> buckets[r.lane] != [] && FrontGap(buckets[r.lane], egoS) < TooCloseGap
  {
    DecideLane(egoLane, egoS, buckets, keepDuration);
  }

  /** Ties go to the earlier candidate: the ego car changes lane only when
      that candidate is strictly cheaper than keeping the lane, and it goes
      right only when that is strictly cheaper than going left (when left is
      a candidate); it keeps its lane exactly when no candidate is cheaper. */
  lemma DecideTieBreak(egoLane: int, egoS: real, buckets: seq<seq<real>>, keepDuration: real)
    requires 0 <= egoLane < NumLanes && |buckets| == NumLanes
    ensures var r := Decide(egoLane, egoS, buckets, keepDuration);
            var kl := CandidateCost(KL, egoLane, egoS, buckets, keepDuration);
            (r.state == KL <==>
               forall st :: st in Successors(KL, egoLane) ==>
                 !Cheaper(CandidateCost(st, egoLane, egoS, buckets, keepDuration), kl)) &&
            (r.state != KL ==> Cheaper(CandidateCost(r.state, egoLane, egoS, buckets, keepDuration), kl)) &&
            (r.state == LCR && 0 < egoLane ==>
               Cheaper(CandidateCost(LCR, egoLane, egoS, buckets, keepDuration),
                       CandidateCost(LCL, egoLane, egoS, buckets, keepDuration)))
  {
    SuccessorTargets(egoLane);
    var states := Successors(KL, egoLane);
    var cs := CandidateCosts(states, egoLane, egoS, buckets, keepDuration);
    var k := MinIndex(cs);
    var r := Decide(egoLane, egoS, buckets, keepDuration);
    assert r.state == states[k];
    assert states[0] == KL && cs[0] == CandidateCost(KL, egoLane, egoS, buckets, keepDuration);
    if k != 0 {
      assert r.state != KL by {
        assert Ordinal(states[0]) < Ordinal(states[k]);
      }
    }
    if r.state == LCR && 0 < egoLane {
      assert states[1] == LCL;
      assert k == 2 by {
        assert Ordinal(states[1]) < Ordinal(states[2]);
      }
    }
    forall st | st in states
      ensures r.state == KL ==> !Cheaper(CandidateCost(st, egoLane, egoS, buckets, keepDuration), cs[0])
    {
      var j :| 0 <= j < |states| && states[j] == st;
      assert cs[j] == CandidateCost(st, egoLane, egoS, buckets, keepDuration);
    }
  }

  /** The lane-change cost of a non-empty lane is never below zero when the
      keep duration is positive. */
  lemma LaneChangeCostNonNegative(ss: seq<real>, egoS: real, keepDuration: real)
    requires 0.0 < keepDuration
    ensures !Cheaper(LaneChangeCost(ss, egoS, keepDuration), Finite(0.0))
  {
    if ss != [] {
      var front := FrontGap(ss, egoS);
      var back := BackGap(ss, egoS);
      if 0.0 < front {
        assert 0.0 < LaneChangeWeight / front;
      }
      assert 0.0 < LaneChangeWeight / back;
      assert 0.0 < RecencyWeight / keepDuration;
    }
  }

  /** An empty own lane is never left and never brakes. */
  lemma DecideOwnLaneEmpty(egoLane: int, egoS: real, buckets: seq<seq<real>>, keepDuration: real)
    requires 0 <= egoLane < NumLanes && |buckets| == NumLanes
    requires buckets[egoLane] == [] && 0.0 < keepDuration
    ensures Decide(egoLane, egoS, buckets, keepDuration) == Decision(KL, egoLane, false)
  {
    DecideTieBreak(egoLane, egoS, buckets, keepDuration);
    SuccessorTargets(egoLane);
    forall st | st in Successors(KL, egoLane) && st != KL
      ensures !Cheaper(CandidateCost(st, egoLane, egoS, buckets, keepDuration), Finite(0.0))
    {
      LaneChangeCostNonNegative(buckets[TargetLane(st, egoLane)], egoS, keepDuration);
    }
  }

  /** An empty road: Keep Lane, the same lane, no braking. */
  lemma DecideEmptyRoad(egoLane: int, egoS: real, keepDuration: real)
    requires 0 <= egoLane < NumLanes
    ensures Decide(egoLane, egoS, [[], [], []], keepDuration) == Decision(KL, egoLane, false)
  {
    DecideTieBreak(egoLane, egoS, [[], [], []], keepDuration);
  }

  /** The ego car in the middle lane with one car 10 ahead in its lane and
      the other lanes empty changes to the left lane; the left lane being
      empty, its stored front distance stays 999 and it does not brake. */
  lemma DecideBlockedMiddleLane(egoS: real, keepDuration: real)
    ensures Decide(1, egoS, [[], [egoS + 10.0], []], keepDuration) == Decision(LCL, 0, false)
  {
    var buckets := [[], [egoS + 10.0], []];
    assert Gaps([egoS + 10.0], egoS) == [10.0];
    assert FrontGap([egoS + 10.0], egoS) == 10.0;
    assert CandidateCost(KL, 1, egoS, buckets, keepDuration) == Finite(6.0);
    DecideTieBreak(1, egoS, buckets, keepDuration);
    var r := Decide(1, egoS, buckets, keepDuration);
    assert r.state != KL by {
      assert Cheaper(CandidateCost(LCL, 1, egoS, buckets, keepDuration), Finite(6.0));
    }
    assert r.state != LCR;
  }

  // ---------------------------------------------------------------------
  // Properties of the costs

  /** A larger positive denominator gives a smaller quotient. */
  lemma RatioAntitone(num: real, a: real, b: real)
    requires 0.0 < num && 0.0 < a < b
    ensures num / b < num / a
  {
    var p := num / a;
    var q := num / b;
    assert p * a == num;
    assert q * b == num;
    if q >= p {
      assert q * b >= p * b;
      assert p * b > p * a;
    }
  }

  /** With the nearest car ahead nearer, the Keep Lane cost is strictly
      higher: of two occupied lanes, the one whose front gap is larger is
      cheaper to keep. */
  lemma KeepLaneCostOrdering(near: seq<real>, far: seq<real>, egoS: real)
    requires near != [] && far != []
    requires FrontGap(near, egoS) < FrontGap(far, egoS)
    ensures Cheaper(KeepLaneCost(far, egoS), KeepLaneCost(near, egoS))
  {
    if 0.0 < FrontGap(near, egoS) {
      RatioAntitone(KeepLaneWeight, FrontGap(near, egoS), FrontGap(far, egoS));
    }
  }

  /** The same ordering for a lane change, between two occupied target lanes
      whose nearest cars behind are equally far. */
  lemma LaneChangeCostOrdering(near: seq<real>, far: seq<real>, egoS: real, keepDuration: real)
    requires near != [] && far != [] && 0.0 < keepDuration
    requires FrontGap(near, egoS) < FrontGap(far, egoS)
    requires BackGap(near, egoS) == BackGap(far, egoS)
    ensures Cheaper(LaneChangeCost(far, egoS, keepDuration), LaneChangeCost(near, egoS, keepDuration))
  {
    if 0.0 < FrontGap(near, egoS) {
      RatioAntitone(LaneChangeWeight, FrontGap(near, egoS), FrontGap(far, egoS));
    }
  }

  /** A lone car at a gap `g` ahead below 9999 is the nearest car ahead, and
      nothing is behind. */
  lemma SingleCarGaps(egoS: real, g: real)
    requires 0.0 <= g < NoCarGap
    ensures FrontGap([egoS + g], egoS) == g && BackGap([egoS + g], egoS) == NoCarGap
  {
    assert Gaps([egoS + g], egoS) == [g];
    assert [g][..0] == [];
  }

  /** Lane-change reluctance: for the same non-empty lane, the cost right
      after a lane change (short keep duration) is strictly higher than after
      the lane has been held longer, unless a zero gap makes both infinite. */
  lemma LaneChangeReluctance(ss: seq<real>, egoS: real, kd1: real, kd2: real)
    requires ss != [] && 0.0 < kd1 < kd2
    requires FrontGap(ss, egoS) != 0.0
    ensures Cheaper(LaneChangeCost(ss, egoS, kd2), LaneChangeCost(ss, egoS, kd1))
  {
    RatioAntitone(RecencyWeight, kd1, kd2);
  }

  /** Once the keep duration is at least 0.01, the recency penalty is
      positive and at most 150. */
  lemma RecencyPenaltyBound(keepDuration: real)
    requires 0.01 <= keepDuration
    ensures 0.0 < RecencyWeight / keepDuration <= 150.0
  {
    if keepDuration > 0.01 {
      RatioAntitone(RecencyWeight, 0.01, keepDuration);
    }
  }

  // ---------------------------------------------------------------------
  // The scan over the cars of a bucket

  /** The s-coordinates of the vehicles of a bucket. */
  function Positions(cars: seq<Vehicle>): (ss: seq<real>)
    ensures |ss| == |cars|
    ensures forall i :: 0 <= i < |cars| ==> ss[i] == cars[i].s
  {
    seq(|cars|, i requires 0 <= i < |cars| => cars[i].s)
  }

  /** The loop of one cost branch: nearest car ahead and behind the ego car. */
  method ScanBucket(cars: seq<Vehicle>, egoS: real) returns (front: real, back: real)
    ensures front == FrontGap(Positions(cars), egoS)
    ensures back == BackGap(Positions(cars), egoS)
  {
    ghost var ds := Gaps(Positions(cars), egoS);
    front := NoCarGap;
    back := NoCarGap;
    var i := 0;
    while i < |cars|
      invariant 0 <= i <= |cars|
      invariant (front, back) == GapScan(ds[..i])
    {
      assert ds[..i + 1][..i] == ds[..i];
      var dist := cars[i].s - egoS;
      if dist >= 0.0 && dist < front {
        front := dist;
      } else if dist < 0.0 && -dist < back {
        back := -dist;
      }
      i := i + 1;
    }
    assert ds[..i] == ds;
  }
}
