/** The traffic participant of the planner (the ego car or a sensed car):
    its driving state, the lane it occupies and the successor states of the
    lane-keeping finite-state machine. */
module Vehicles {

  /** The three driving states: Keep Lane, Lane Change Left, Lane Change Right. */
  datatype State = KL | LCL | LCR

  /** The enumerator value of a state in the C++ enum. */
  function Ordinal(st: State): (v: int)
    ensures 0 <= v <= 2
  {
    match st
    case KL => 0
    case LCL => 1
    case LCR => 2
  }

  /** The enum values are exactly 0, 1 and 2, one per state. */
  lemma OrdinalIsBijective(a: State, b: State, v: int)
    requires 0 <= v <= 2
    ensures Ordinal(a) == Ordinal(b) ==> a == b
    ensures exists st :: Ordinal(st) == v
  {
    if v == 0 {
      assert Ordinal(KL) == v;
    } else if v == 1 {
      assert Ordinal(LCL) == v;
    } else {
      assert Ordinal(LCR) == v;
    }
  }

  /** Default lane geometry of `find_lane`. */
  const LaneWidth: int := 4
  const NumLanes: int := 3

  /** Initial value of the three stored front distances. */
  const UnsetFrontDist: real := 999.0

  /** The lane interval test of `find_lane`: `i*w <= d < (i+1)*w`. */
  predicate InLane(d: real, w: int, i: int)
  {
    (i * w) as real <= d < ((i + 1) * w) as real
  }

  /** Reference definition of the lane `find_lane` settles on: the lane that
      contains `d` when `d` lies on the road of `n` lanes of width `w`, and
      lane 0 otherwise. So it is 0 or one of the `n` lanes, and that lane
      holds `d`. */
  function LaneIndex(d: real, w: int, n: int): (r: int)
    ensures 0 <= r && (r == 0 || (r < n && InLane(d, w, r)))
  {
    if 0 < w && 0.0 <= d < (n * w) as real then
      var i := (d / w as real).Floor;
      InLaneIsFloor(d, w, i);
      LaneBounds(d, w, n, i);
      i
    else 0
  }

  /** The lane that holds a `d` on the road is one of the `n` lanes. */
  lemma LaneBounds(d: real, w: int, n: int, i: int)
    requires 0 < w && 0.0 <= d < (n * w) as real && InLane(d, w, i)
    ensures 0 <= i < n
  {
    assert 0 < (i + 1) * w && i * w < n * w;
    assert (n - i) * w == n * w - i * w;
    PositiveFactor(i + 1, w);
    PositiveFactor(n - i, w);
  }

  /** A product with a positive factor is positive only if the other factor is. */
  lemma PositiveFactor(a: int, w: int)
    requires 0 < w && 0 < a * w
    ensures 0 < a
  {
  }

  /** For a positive width, the interval test holds exactly at the lane
      number `Floor(d / w)`. */
  lemma InLaneIsFloor(d: real, w: int, i: int)
    requires 0 < w
    ensures InLane(d, w, i) <==> (d / w as real).Floor == i
  {
    var q := d / w as real;
    assert d == q * w as real;
    assert (i * w) as real == i as real * w as real;
    assert ((i + 1) * w) as real == (i + 1) as real * w as real;
    assert (i as real * w as real <= q * w as real) <==> i as real <= q;
    assert (q * w as real < (i + 1) as real * w as real) <==> q < (i + 1) as real;
  }

  /** One round of the `find_lane` loop: the lane over the first `i + 1`
      intervals is `i` when `d` is in interval `i`, and otherwise the lane over
      the first `i` intervals. */
  lemma LaneIndexStep(d: real, w: int, i: int)
    requires 0 <= i
    ensures LaneIndex(d, w, i + 1) == if InLane(d, w, i) then i else LaneIndex(d, w, i)
  {
    if 0 < w {
      InLaneIsFloor(d, w, i);
      assert (i * w) as real < ((i + 1) * w) as real;
      if 0.0 <= d < ((i + 1) * w) as real && !(d < (i * w) as real) {
        assert InLane(d, w, i);
      }
    } else {
      assert !InLane(d, w, i);
      assert (i + 1) * w <= 0;
    }
  }

  /** For a positive width and `d` on the road, the lane is the unique `i`
      in `[0, n)` with `i*w <= d < (i+1)*w`. */
  lemma {:induction false} LaneIndexOnRoad(d: real, w: int, n: int)
    requires 0 < w && 0.0 <= d < (n * w) as real
    ensures 0 <= LaneIndex(d, w, n) < n && InLane(d, w, LaneIndex(d, w, n))
    ensures forall j :: InLane(d, w, j) ==> j == LaneIndex(d, w, n)
  {
    var k := LaneIndex(d, w, n);
    InLaneIsFloor(d, w, k);
    assert 0 <= k by {
      assert (0 * w) as real <= d;
      assert 0.0 <= d / w as real;
    }
    assert k < n by {
      assert d / w as real < n as real;
    }
    forall j | InLane(d, w, j)
      ensures j == k
    {
      InLaneIsFloor(d, w, j);
    }
  }

  /** Off the road (`d < 0` or `d >= n*w`) the lane stays 0: it is not
      clamped to the last lane. */
  lemma LaneIndexOffRoad(d: real, w: int, n: int)
    requires d < 0.0 || (n * w) as real <= d
    ensures LaneIndex(d, w, n) == 0
  {
  }

  /** With at least one lane the result is a lane of the road. */
  lemma LaneIndexInRange(d: real, w: int, n: int)
    requires 1 <= n
    ensures 0 <= LaneIndex(d, w, n) < n
  {
    if 0 < w && 0.0 <= d < (n * w) as real {
      LaneIndexOnRoad(d, w, n);
    }
  }

  /** With the default geometry, the lane centre `2 + 4*k` the planner aims at
      lies in lane `k`. */
  lemma LaneCentres(k: int)
    requires 0 <= k < NumLanes
    ensures LaneIndex((2 + LaneWidth * k) as real, LaneWidth, NumLanes) == k
  {
    var d := (2 + 4 * k) as real;
    assert InLane(d, 4, k);
    LaneIndexOnRoad(d, 4, 3);
  }

  /** The successor states of the machine, in the order the source lists
      them: Keep Lane always first, then Lane Change Left unless in the
      leftmost lane, then Lane Change Right unless in lane 2; from a
      lane-change state only Keep Lane. */
  function Successors(st: State, lane: int): (r: seq<State>)
    ensures 1 <= |r| && r[0] == KL
    ensures forall i, j :: 0 <= i < j < |r| ==> Ordinal(r[i]) < Ordinal(r[j])
    ensures st == KL ==> (LCL in r <==> 0 < lane) && (LCR in r <==> lane < 2)
    ensures st != KL ==> r == [KL]
  {
    if st == KL then
      [KL] + (if 0 < lane then [LCL] else []) + (if lane < 2 then [LCR] else [])
    else
      [KL]
  }

  /** On a three-lane road, Keep Lane offers two or three successors. */
  lemma SuccessorsCount(lane: int)
    requires 0 <= lane < NumLanes
    ensures |Successors(KL, lane)| == if lane == 1 then 3 else 2
  {
    var r := Successors(KL, lane);
    if lane == 1 {
      assert r == [KL, LCL, LCR];
    } else if lane == 0 {
      assert r == [KL, LCR];
    } else {
      assert r == [KL, LCL];
    }
  }

  /** Where each state sits among the Keep Lane successors: Keep Lane
      first, Lane Change Left second, Lane Change Right last. */
  lemma SuccessorPositions(lane: int)
    requires 0 <= lane < NumLanes
    ensures var r := Successors(KL, lane);
            2 <= |r| &&
            forall j :: 0 <= j < |r| ==>
              (r[j] == KL <==> j == 0) &&
              (r[j] == LCL <==> 0 < lane && j == 1) && (r[j] == LCR <==> lane < 2 && j == |r| - 1)
  {
    var r := Successors(KL, lane);
    if lane == 1 {
      assert r == [KL, LCL, LCR];
    } else if lane == 0 {
      assert r == [KL, LCR];
    } else {
      assert r == [KL, LCL];
    }
  }

  /** A car: identity, pose and speed as sensed, the lane it is in, its
      driving state and the front distances the planner stores on it. */
  class Vehicle {
    const id: int
    const x: real
    const y: real
    const s: real
    const d: real
    const v: real

    var lane: int
    var state: State
    var frontDist: real
    var leftFrontDist: real
    var rightFrontDist: real

    /** Stores the arguments, finds the lane of `d` with the default geometry
        and marks the three front distances unset. */
    constructor (id: int, x: real, y: real, s: real, d: real, v: real, st: State := KL)
      ensures this.id == id && this.x == x && this.y == y
      ensures this.s == s && this.d == d && this.v == v
      ensures state == st
      ensures lane == LaneIndex(d, LaneWidth, NumLanes) && 0 <= lane < NumLanes
      ensures frontDist == UnsetFrontDist
      ensures leftFrontDist == UnsetFrontDist
      ensures rightFrontDist == UnsetFrontDist
    {
      this.id := id;
      this.x := x;
      this.y := y;
      this.s := s;
      this.d := d;
      this.v := v;
      this.state := st;
      new;
      FindLane(d);
      LaneIndexInRange(d, LaneWidth, NumLanes);
      frontDist := UnsetFrontDist;
      leftFrontDist := UnsetFrontDist;
      rightFrontDist := UnsetFrontDist;
    }

    /** Sets `lane` to the lane that contains `d`, scanning the `numLane`
        intervals of width `laneWidth`; lane 0 when none contains it. Only
        `lane` may change. */
    method FindLane(d: real, laneWidth: int := LaneWidth, numLane: int := NumLanes)
      modifies this`lane
      ensures lane == LaneIndex(d, laneWidth, numLane)
    {
      lane := 0;
      var i := 0;
      while i < numLane
        invariant i <= numLane || i == 0
        invariant 0 <= i
        invariant lane == LaneIndex(d, laneWidth, i)
      {
        LaneIndexStep(d, laneWidth, i);
        if (i * laneWidth) as real <= d && d < ((i + 1) * laneWidth) as real {
          lane := i;
        }
        i := i + 1;
      }
      if numLane < 0 {
        assert LaneIndex(d, laneWidth, numLane) == 0 by {
          if 0 < laneWidth {
            assert numLane * laneWidth < 0;
          }
        }
      }
    }

    /** The possible next states from the current state and lane. */
    method SuccessorStates() returns (states: seq<State>)
      ensures states == Successors(state, lane)
    {
      states := [KL];
      var curState := state;
      var curLane := lane;
      if curState == KL {
        if curLane > 0 {
          states := states + [LCL];
        }
        if curLane < 2 {
          states := states + [LCR];
        }
      }
    }
  }
}
