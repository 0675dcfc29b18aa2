/**
 * The per-axis controller of a turntable (model/bang-bang-controller.cc): it
 * plays back a queue of kinematic states and, when a new target arrives,
 * replaces the queue by a minimum-time plan towards it.
 */
module BangBangController {
  import opened Turntables
  import opened Results
  import opened BangBangSolver

  /**
   * The controller's state: the limiter box, the state the current plan
   * starts from (init), the state played back last (curr), the target (last)
   * and the planned queue, front first.
   */
  datatype Controller = Controller(bound: Box, init: State, curr: State, last: State, states: seq<State>)

  /** A fresh controller: all three states at rest at zero, an empty queue. */
  function NewController(bound: Box): Controller {
    var zero := State(0.0, 0.0, 0.0, 0.0);
    Controller(bound, zero, zero, zero, [])
  }

  function Max(p: real, q: real): real { if p < q then q else p }

  /** Queue times never decrease from front to back. */
  predicate Chronological(q: seq<State>) {
    forall i, j :: 0 <= i < j < |q| ==> q[i].t <= q[j].t
  }

  /** Constant-acceleration motion of a state for d seconds. */
  function Advance(s: State, d: real): State {
    s.(t := s.t + d, x := s.x + s.v * d + 0.5 * s.a * d * d, v := s.v + s.a * d)
  }

  /** Playing back d1 and then d2 seconds is playing back d1 + d2 seconds. */
  lemma AdvanceAdditive(s: State, d1: real, d2: real)
    ensures Advance(Advance(s, d1), d2) == Advance(s, d1 + d2)
  {
    var m := Advance(s, d1);
    assert m.v * d2 == s.v * d2 + s.a * d1 * d2;
    assert 0.5 * s.a * (d1 + d2) * (d1 + d2) == 0.5 * s.a * d1 * d1 + s.a * d1 * d2 + 0.5 * s.a * d2 * d2;
  }

  /**
   * One manoeuvre segment (Speeding, Braking and Keeping, lines 370-436): a
   * non-positive duration pushes nothing; otherwise the back state is pushed
   * again with the segment's acceleration, followed by the state it reaches
   * after d seconds, carrying endAccel.
   */
  function Push(q: seq<State>, d: real, accel: real, endAccel: real): (r: seq<State>)
    requires |q| > 0
    ensures d <= 0.0 ==> r == q
    ensures 0.0 < d ==>
      && |r| == |q| + 2 && r[..|q|] == q
      && r[|q|] == q[|q| - 1].(a := accel)
      && r[|q| + 1] == Advance(r[|q|], d).(a := endAccel)
    ensures Chronological(q) ==> Chronological(r)
  {
    if d <= 0.0 then q
    else
      var start := q[|q| - 1].(a := accel);
      q + [start, Advance(start, d).(a := endAccel)]
  }

  /** The three kinds of segment and the accelerations the source gives them. */
  datatype Segment = Speeding | Braking | Keeping

  function Run(q: seq<State>, s: Segment, d: real, b: Box): (r: seq<State>)
    requires |q| > 0
    ensures |r| >= |q| && r[..|q|] == q
    ensures d <= 0.0 ==> r == q
    ensures Chronological(q) ==> Chronological(r)
  {
    match s
    case Speeding => Push(q, d, b.zMax, 0.0)
    case Braking => Push(q, d, b.zMin, b.zMin)
    case Keeping => Push(q, d, 0.0, 0.0)
  }

  /**
   * Tracking (lines 438-447): the target is appended, its time raised to
   * the back of the queue if the plan ends later than requested.
   */
  function Tracking(q: seq<State>, last: State): (r: (seq<State>, State))
    requires |q| > 0
    ensures r.0 == q + [r.1]
    ensures r.1 == last.(t := Max(last.t, q[|q| - 1].t))
    ensures Chronological(q) ==> Chronological(r.0)
  {
    var target := if last.t < q[|q| - 1].t then last.(t := q[|q| - 1].t) else last;
    (q + [target], target)
  }

  /**
   * Staying (lines 449-479): from the back state, decelerate to rest against
   * the current velocity and stop accelerating.
   */
  function Staying(q: seq<State>, b: Box): (r: seq<State>)
    requires |q| > 0 && b.zMin < 0.0 < b.zMax
    ensures |r| == |q| + 2 && r[..|q|] == q
    ensures r[|q|] == q[|q| - 1].(a := r[|q|].a)
    ensures r[|q|].a * q[|q| - 1].v <= 0.0
    ensures r[|q| + 1] == Advance(r[|q|], r[|q| + 1].t - r[|q|].t).(a := 0.0)
    ensures r[|q| + 1].t >= r[|q|].t && r[|q| + 1].v == 0.0 && r[|q| + 1].a == 0.0
    ensures Chronological(q) ==> Chronological(r)
  {
    var back := q[|q| - 1];
    var (a, t) := BrakeToRest(back.v, b);
    var start := back.(a := a);
    var stop := State(start.t + t, start.x + start.v * t + 0.5 * a * t * t, 0.0, 0.0);
    AppendTwo(q, start, stop);
    q + [start, stop]
  }

  /** The deceleration against v and the time it takes to bring v to rest. */
  function BrakeToRest(v: real, b: Box): (r: (real, real))
    requires b.zMin < 0.0 < b.zMax
    ensures r.0 * r.1 == -v && 0.0 <= r.1 && r.0 * v <= 0.0
  {
    if v > 0.0 then
      assert b.zMin * (-v / b.zMin) == -v;
      (b.zMin, -v / b.zMin)
    else if v < 0.0 then
      assert b.zMax * (-v / b.zMax) == -v;
      (b.zMax, -v / b.zMax)
    else (0.0, 0.0)
  }

  /** Two states appended in order after the back of a chronological queue keep it chronological. */
  lemma AppendTwo(q: seq<State>, start: State, stop: State)
    requires |q| > 0 && q[|q| - 1].t <= start.t <= stop.t
    ensures Chronological(q) ==> Chronological(q + [start, stop])
  {
    if Chronological(q) {
      var r := q + [start, stop];
      forall i, j | 0 <= i < j < |r| ensures r[i].t <= r[j].t {
        if j >= |q| && i < |q| { assert q[i].t <= q[|q| - 1].t; }
      }
    }
  }

  /** Tracking followed by Staying: the tail every plan ends with. */
  function Settle(q: seq<State>, last: State, b: Box): (r: (seq<State>, State))
    requires |q| > 0 && b.zMin < 0.0 < b.zMax
    ensures |r.0| == |q| + 3 && r.0[..|q|] == q && r.0[|q|] == r.1
    ensures r.1 == last.(t := Max(last.t, q[|q| - 1].t))
    ensures r.0[|q| + 2].v == 0.0 && r.0[|q| + 2].a == 0.0
    ensures Chronological(q) ==> Chronological(r.0)
  {
    var (q', last') := Tracking(q, last);
    (Staying(q', b), last')
  }

  /** The manoeuvre segments of a solver profile, accelerate-first. */
  function RunUp(q: seq<State>, p: Profile, b: Box): (r: seq<State>)
    requires |q| > 0
    ensures |r| >= |q| && r[..|q|] == q
    ensures 0.0 < p.t1 ==> |r| > |q|
    ensures Chronological(q) ==> Chronological(r)
  {
    if p.coast then Run(Run(Run(q, Speeding, p.t1, b), Keeping, p.t2 - p.t1, b), Braking, p.tf - p.t2, b)
    else Run(Run(q, Speeding, p.t1, b), Braking, p.tf - p.t1, b)
  }

  /** The manoeuvre segments of a solver profile, decelerate-first. */
  function RunDown(q: seq<State>, p: Profile, b: Box): (r: seq<State>)
    requires |q| > 0
    ensures |r| >= |q| && r[..|q|] == q
    ensures 0.0 < p.t1 ==> |r| > |q|
    ensures Chronological(q) ==> Chronological(r)
  {
    if p.coast then Run(Run(Run(q, Braking, p.t1, b), Keeping, p.t2 - p.t1, b), Speeding, p.tf - p.t2, b)
    else Run(Run(q, Braking, p.t1, b), Speeding, p.tf - p.t1, b)
  }

  /** Bounds the planner relies on: a solvable box with braking and speeding rates. */
  predicate PlannerReady(b: Box) { SolverReady(b) && b.zMin < 0.0 }

  /** What every plan guarantees, as written or corrected. */
  predicate WellPlanned(c: Controller, r: Controller) {
    && r.bound == c.bound && r.init == c.init && r.curr == c.curr
    && |r.states| >= 4 && r.states[0] == c.init
    && Chronological(r.states)
    && r.last.x == c.last.x && r.last.v == c.last.v && r.last.a == c.last.a && r.last.t >= c.last.t
    && r.states[|r.states| - 3] == r.last
    && r.states[|r.states| - 1].v == 0.0 && r.states[|r.states| - 1].a == 0.0
  }

  /**
   * DoMakeScheme as written (lines 249-368): the speeding-only branch has no
   * return, so its tail is followed by a second one; and the pure-braking
   * case (c0 < 0 && c2 == 0) matches no guard and gets the tail alone.
   */
  function MakeSchemeAsWritten(sqrt: Sqrt, c: Controller): (r: Controller)
    requires IsSqrt(sqrt) && PlannerReady(c.bound)
    ensures WellPlanned(c, r)
  {
    var b, from, to := c.bound, c.curr, c.last;
    var am := b.zMax;
    if UpCase(from, to, am) || DownCase(from, to, am) then
      // the first two branches return after one tail, as the corrected planner does
      MakeScheme(sqrt, c)
    else
      var (q1, last1) := SpeedingBlock(c);
      BrakingBlockAsWritten(c, q1, last1)
  }

  /** Lines 344-353: the speeding-only branch, which falls through. */
  function SpeedingBlock(c: Controller): (r: (seq<State>, State))
    requires PlannerReady(c.bound)
    ensures |r.0| >= 1 && r.0[0] == c.init && Chronological(r.0)
    ensures r.1.x == c.last.x && r.1.v == c.last.v && r.1.a == c.last.a && r.1.t >= c.last.t
    ensures SpeedCase(c.curr, c.last, c.bound.zMax) ==> |r.0| >= 4 && r.0[|r.0| - 3] == r.1
    ensures !SpeedCase(c.curr, c.last, c.bound.zMax) ==> r == ([c.init], c.last)
  {
    var b, from, to := c.bound, c.curr, c.last;
    var dt := to.t - c.init.t;
    if SpeedCase(from, to, b.zMax) then
      var tf := (to.v - from.v) / b.zMax;
      Settle(if tf > dt then Run([c.init], Speeding, tf, b) else [c.init], to, b)
    else
      ([c.init], to)
  }

  /** Lines 354-367: the braking branch with its guard as written, then the final tail. */
  function BrakingBlockAsWritten(c: Controller, q1: seq<State>, last1: State): (r: Controller)
    requires PlannerReady(c.bound)
    requires |q1| >= 1 && q1[0] == c.init && Chronological(q1)
    requires last1.x == c.last.x && last1.v == c.last.v && last1.a == c.last.a && last1.t >= c.last.t
    ensures WellPlanned(c, r)
    ensures SpeedCase(c.curr, c.last, c.bound.zMax) ==> r.states == Settle(q1, last1, c.bound).0
  {
    var b, from, to := c.bound, c.curr, c.last;
    var dt := to.t - c.init.t;
    var q2 :=
      if BrakeGuardAsWritten(from, to, b.zMax) then
        var tf := -(to.v - from.v) / b.zMax;
        assert SpeedCase(from, to, b.zMax) ==> tf <= 0.0;
        if tf > dt then Run(q1, Braking, tf, b) else q1
      else q1;
    var (q, last) := Settle(q2, last1, b);
    c.(last := last, states := q)
  }

  /**
   * The manoeuvre part of DoMakeScheme with the braking guard corrected to
   * c0 < 0 && c2 == 0: segments are planned exactly when the minimum swing
   * time exceeds the time left until the target.
   */
  function Manoeuvre(sqrt: Sqrt, c: Controller): (q: seq<State>)
    requires IsSqrt(sqrt) && PlannerReady(c.bound)
    ensures |q| >= 1 && q[0] == c.init && Chronological(q)
    ensures SwingTimeAxis(sqrt, c.curr, c.last, c.bound) <= c.last.t - c.init.t ==> q == [c.init]
    ensures SwingTimeAxis(sqrt, c.curr, c.last, c.bound) > c.last.t - c.init.t >= 0.0 ==> |q| > 1
  {
    var b, from, to := c.bound, c.curr, c.last;
    var am := b.zMax;
    var dt := to.t - c.init.t;
    var q0 := [c.init];
    GuardsPartition(from, to, am);
    if UpCase(from, to, am) then
      var p := UpProfile(sqrt, from, to, b);
      UpSwitching(sqrt, from, to, am);
      if p.tf > dt then RunUp(q0, p, b) else q0
    else if DownCase(from, to, am) then
      var p := DownProfile(sqrt, from, to, b);
      if p.tf > dt then RunDown(q0, p, b) else q0
    else if SpeedCase(from, to, am) then
      var tf := (to.v - from.v) / am;
      if tf > dt then Run(q0, Speeding, tf, b) else q0
    else
      var tf := (from.v - to.v) / am;
      SingleBrakeTime(sqrt, from, to, b);
      if tf > dt then Run(q0, Braking, tf, b) else q0
  }

  /** DoMakeScheme with one tail per plan and the corrected braking guard. */
  function MakeScheme(sqrt: Sqrt, c: Controller): (r: Controller)
    requires IsSqrt(sqrt) && PlannerReady(c.bound)
    ensures WellPlanned(c, r)
    ensures SwingTimeAxis(sqrt, c.curr, c.last, c.bound) <= c.last.t - c.init.t ==> |r.states| == 4
    ensures SwingTimeAxis(sqrt, c.curr, c.last, c.bound) > c.last.t - c.init.t >= 0.0 ==> |r.states| > 4
  {
    var (q, last) := Settle(Manoeuvre(sqrt, c), c.last, c.bound);
    c.(last := last, states := q)
  }

  // ---------------------------------------------------------------------------
  // The two defects of the planner as written
  // ---------------------------------------------------------------------------

  /**
   * In the speeding-only case the plan as written carries the tail twice:
   * three states more than the corrected plan.
   */
  lemma SpeedingTailTwice(sqrt: Sqrt, c: Controller)
    requires IsSqrt(sqrt) && PlannerReady(c.bound) && SpeedCase(c.curr, c.last, c.bound.zMax)
    ensures |MakeSchemeAsWritten(sqrt, c).states| == |MakeScheme(sqrt, c).states| + 3
  {
    GuardsPartition(c.curr, c.last, c.bound.zMax);
    var (q1, last1) := SpeedingBlock(c);
    assert MakeSchemeAsWritten(sqrt, c) == BrakingBlockAsWritten(c, q1, last1);
    assert q1 == MakeScheme(sqrt, c).states;
  }

  /** A controller at rest on its target: the plan as written has seven states, not four. */
  lemma RestingTargetPlannedTwice(sqrt: Sqrt)
    requires IsSqrt(sqrt)
    ensures var c := NewController(Box(-1.0, 1.0, -1.0, 1.0, -1.0, 1.0));
            |MakeSchemeAsWritten(sqrt, c).states| == 7 && |MakeScheme(sqrt, c).states| == 4
  {
    var c := NewController(Box(-1.0, 1.0, -1.0, 1.0, -1.0, 1.0));
    assert SpeedCase(c.curr, c.last, 1.0);
    SpeedingTailTwice(sqrt, c);
    assert SwingTimeAxis(sqrt, c.curr, c.last, c.bound) == 0.0;
  }

  /**
   * In the pure-braking case no guard as written matches, so the plan is the
   * tail alone even when the target cannot be reached in time.
   */
  lemma BrakingNotPlanned(sqrt: Sqrt, c: Controller)
    requires IsSqrt(sqrt) && PlannerReady(c.bound) && BrakeCase(c.curr, c.last, c.bound.zMax)
    ensures |MakeSchemeAsWritten(sqrt, c).states| == 4
    ensures SwingTimeAxis(sqrt, c.curr, c.last, c.bound) > c.last.t - c.init.t >= 0.0
            ==> |MakeScheme(sqrt, c).states| > 4
  {
    GuardsPartition(c.curr, c.last, c.bound.zMax);
  }

  // ---------------------------------------------------------------------------
  // Limiting the target (DoLimit)
  // ---------------------------------------------------------------------------

  /**
   * The squared speed the target may have at position x (lines 494-497):
   * twice the acceleration limit on x's side times the room left to the
   * position bound on that side.
   */
  function CapSquare(x: real, b: Box): real {
    2.0 * (if x > 0.0 then b.zMax else b.zMin) * (if x > 0.0 then b.xMax - x else b.xMin - x)
  }

  /** A target DoLimit leaves alone. */
  predicate Reachable(s: State, b: Box) {
    PosInBound(s, b) && VelInBound(s, b) && s.v * s.v <= CapSquare(s.x, b)
  }

  /**
   * DoLimit (lines 481-514): an out-of-range position or velocity goes to
   * the bound on its sign's side, then the speed is capped by the room to
   * the position bound on x's side of zero, whichever way the target moves.
   * The result is a reachable target, and a reachable target is kept.
   */
  function Limit(sqrt: Sqrt, s: State, b: Box): (r: State)
    requires IsSqrt(sqrt) && Admissible(b)
    ensures r.t == s.t && r.a == s.a
    ensures Reachable(r, b)
    ensures r == s <==> Reachable(s, b)
  {
    var x := IntoRange(s.x, b.xMin, b.xMax);
    var v := IntoRange(s.v, b.yMin, b.yMax);
    var v' := CapSpeed(sqrt, x, v, b);
    LimitShape(s, b, x, v, v');
    s.(x := x, v := v')
  }

  /**
   * The target with position x and speed v' is reachable when x and v are
   * the range-checked position and velocity and v' is v capped; it is the
   * original target exactly when that target was reachable.
   */
  lemma LimitShape(s: State, b: Box, x: real, v: real, v': real)
    requires Admissible(b)
    requires x == IntoRange(s.x, b.xMin, b.xMax) && v == IntoRange(s.v, b.yMin, b.yMax)
    requires Capped(x, v, v', b)
    ensures Reachable(s.(x := x, v := v'), b)
    ensures s.(x := x, v := v') == s <==> Reachable(s, b)
  {
  }

  /**
   * The cap looks at the bound on x's side of zero, not at the bound the
   * target moves towards: a target just right of zero that moves left
   * faster than it could brake before xMin is kept.
   */
  lemma KeptTargetOvershoots(sqrt: Sqrt)
    requires IsSqrt(sqrt)
    ensures var b := Box(-0.2, 1.0, -2.0, 2.0, -1.0, 1.0);
            var s := State(0.0, 0.1, -1.3, 0.0);
            Admissible(b) && Limit(sqrt, s, b) == s && s.v * s.v > 2.0 * -b.zMin * (s.x - b.xMin)
  {
    assert Reachable(State(0.0, 0.1, -1.3, 0.0), Box(-0.2, 1.0, -2.0, 2.0, -1.0, 1.0));
  }

  /** An out-of-range value goes to the upper bound if positive, else to the lower one. */
  function IntoRange(p: real, lo: real, hi: real): (r: real)
    requires lo <= hi
    ensures lo <= r <= hi
    ensures lo <= p <= hi <==> r == p
    ensures lo <= 0.0 <= hi ==> r == (if p < lo then lo else if p > hi then hi else p)
  {
    if !(p <= hi && p >= lo) then (if p > 0.0 then hi else lo) else p
  }

  /**
   * v' is a capped speed for v at position x: within the speed bounds, its
   * square within the cap, and v itself when v already is.
   */
  predicate Capped(x: real, v: real, v': real, b: Box) {
    && b.yMin <= v' <= b.yMax && v' * v' <= CapSquare(x, b)
    && (v * v <= CapSquare(x, b) ==> v' == v)
  }

  /** Lines 494-512: the velocity capped by the room to the bound on x's side of zero. */
  function CapSpeed(sqrt: Sqrt, x: real, v: real, b: Box): (v': real)
    requires IsSqrt(sqrt) && Admissible(b) && b.xMin <= x <= b.xMax && b.yMin <= v <= b.yMax
    ensures Capped(x, v, v', b)
  {
    CapNonNegative(x, b);
    var cap := sqrt(CapSquare(x, b));
    LimitSpeed(v, cap, CapSquare(x, b), b);
    CapRule(v, cap, b)
  }

  function Min(p: real, q: real): real { if p < q then p else q }

  lemma CapNonNegative(x: real, b: Box)
    requires Admissible(b) && b.xMin <= x <= b.xMax
    ensures 0.0 <= CapSquare(x, b)
  {
    if x > 0.0 {
      assert b.zMax * (b.xMax - x) >= 0.0;
    } else {
      assert b.zMin * (b.xMin - x) >= 0.0;
    }
  }

  function CapRule(v: real, cap: real, b: Box): real {
    if v > 0.0 then (if v > Min(cap, b.yMax) then Min(cap, b.yMax) else v)
    else if v < 0.0 then (if v < Max(-cap, b.yMin) then Max(-cap, b.yMin) else v)
    else v
  }

  lemma LimitSpeed(v: real, cap: real, cap2: real, b: Box)
    requires Admissible(b) && 0.0 <= cap && cap * cap == cap2 && b.yMin <= v <= b.yMax
    ensures b.yMin <= CapRule(v, cap, b) <= b.yMax
    ensures CapRule(v, cap, b) * CapRule(v, cap, b) <= cap2
    ensures v * v <= cap2 ==> CapRule(v, cap, b) == v
  {
    var v' := CapRule(v, cap, b);
    if v' > 0.0 {
      SquareMonotone(v', cap);
    } else if v' < 0.0 {
      SquareMonotone(-v', cap);
    } else {
      SquareMonotone(0.0, cap);
    }
    if v * v <= cap2 {
      if v > cap { SquareStrict(cap, v); }
      if v < -cap { SquareStrict(cap, -v); }
    }
  }

  lemma SquareStrict(p: real, q: real)
    requires 0.0 <= p < q
    ensures p * p < q * q
  {
    var d := q - p;
    assert q * q == p * p + 2.0 * p * d + d * d;
    assert d * d > 0.0;
    assert p * d >= 0.0;
  }

  // ---------------------------------------------------------------------------
  // Playback (DoCalcState) and a new target (NotifyTarget)
  // ---------------------------------------------------------------------------

  /** The number of queued states that are due at time now: the leading run with t <= now. */
  function Due(q: seq<State>, now: real): (k: nat)
    ensures k <= |q|
    ensures forall i :: 0 <= i < k ==> q[i].t <= now
    ensures k < |q| ==> q[k].t > now
  {
    if |q| == 0 || q[0].t > now then 0 else 1 + Due(q[1..], now)
  }

  /** In a chronological queue the due states are exactly those with t <= now. */
  lemma {:induction false} DueChronological(q: seq<State>, now: real)
    requires Chronological(q)
    ensures forall i :: 0 <= i < |q| ==> (i < Due(q, now) <==> q[i].t <= now)
  {
    var k := Due(q, now);
    forall i | 0 <= i < |q|
      ensures i < k <==> q[i].t <= now
    {
      if k <= i {
        assert q[k].t <= q[i].t;
      }
    }
  }

  /** Clamping as lines 227-243 do it: the upper bound is checked first. */
  function Clamp(p: real, lo: real, hi: real): (r: real)
    ensures lo <= hi ==> lo <= r <= hi
    ensures lo <= p <= hi ==> r == p
    ensures r == p || r == lo || r == hi
  {
    var p' := if p > hi then hi else p;
    if p' < lo then lo else p'
  }

  /**
   * The state played back at time now from the last due state s (lines
   * 219-240): constant-acceleration motion, position and velocity clamped to
   * the box; a state already at now is kept.
   */
  function Playback(s: State, now: real, b: Box): (r: State)
    requires s.t <= now
    ensures r.a == s.a && r.t == now
    ensures b.xMin <= b.xMax && b.yMin <= b.yMax && s.t < now ==> PosInBound(r, b) && VelInBound(r, b)
    ensures s.t == now ==> r == s
  {
    var dt := now - s.t;
    if dt > 0.0 then
      var m := Advance(s, dt);
      m.(x := Clamp(m.x, b.xMin, b.xMax), v := Clamp(m.v, b.yMin, b.yMax))
    else s
  }

  /**
   * Playing a planned segment back to its end reproduces the planned end
   * state whenever that state lies inside the box.
   */
  lemma PlaybackFollowsPlan(s: State, d: real, endAccel: real, b: Box)
    requires 0.0 < d
    requires PosInBound(Advance(s, d), b) && VelInBound(Advance(s, d), b)
    ensures var e := Advance(s, d).(a := endAccel);
            Playback(s, e.t, b).x == e.x && Playback(s, e.t, b).v == e.v
  {
    assert s.t + d - s.t == d;
  }

  /**
   * DoCalcState (lines 205-247): pop every due state, remembering the last
   * one popped, play it back to now, and report and restart the plan from
   * it. An empty queue changes nothing and reports nothing.
   */
  method CalcState(c: Controller, now: real) returns (r: Controller, reported: Option<State>)
    requires c.curr.t <= now
    ensures |c.states| == 0 ==> r == c && reported == None
    ensures |c.states| > 0 ==>
      var k := Due(c.states, now);
      var base := if k > 0 then c.states[k - 1] else c.curr;
      && r.states == c.states[k..]
      && r.curr == Playback(base, now, c.bound)
      && r.init == r.curr && reported == Some(r.curr)
      && r.bound == c.bound && r.last == c.last
  {
    if |c.states| == 0 {
      return c, None;
    }
    var queue := c.states;
    var curr := c.curr;
    var popped := 0;
    while popped < |c.states| && c.states[popped].t <= now
      invariant 0 <= popped <= |c.states|
      invariant queue == c.states[popped..]
      invariant popped == 0 ==> curr == c.curr
      invariant popped > 0 ==> curr == c.states[popped - 1]
      invariant forall i :: 0 <= i < popped ==> c.states[i].t <= now
      invariant curr.t <= now
      decreases |c.states| - popped
    {
      curr := queue[0];
      queue := queue[1..];
      popped := popped + 1;
    }
    DueIsPrefix(c.states, now, popped);
    curr := Playback(curr, now, c.bound);
    r := c.(init := curr, curr := curr, states := queue);
    reported := Some(curr);
  }

  /** The loop stops after exactly the due states. */
  lemma {:induction false} DueIsPrefix(q: seq<State>, now: real, k: nat)
    requires k <= |q| && (forall i :: 0 <= i < k ==> q[i].t <= now) && (k < |q| ==> q[k].t > now)
    ensures Due(q, now) == k
    decreases k
  {
    if k > 0 {
      assert forall i :: 0 <= i < k - 1 ==> q[1..][i].t <= now by {
        forall i | 0 <= i < k - 1 ensures q[1..][i].t <= now { assert q[1..][i] == q[i + 1]; }
      }
      if k - 1 < |q[1..]| { assert q[1..][k - 1] == q[k]; }
      DueIsPrefix(q[1..], now, k - 1);
    }
  }

  /**
   * NotifyTarget (lines 96-105): read the target, limit it to a reachable
   * state, and plan towards it. The plan is made by the corrected planner
   * MakeScheme, which queues one tail per plan; NotifyTargetAsWritten plans
   * with the planner as written.
   */
  function NotifyTarget(sqrt: Sqrt, c: Controller, t: real, x: real, v: real): (r: Controller)
    requires IsSqrt(sqrt) && Admissible(c.bound)
    ensures var target := Limit(sqrt, State(t, x, v, c.last.a), c.bound);
            WellPlanned(c.(last := target), r) && Reachable(r.last, c.bound)
    ensures var target := Limit(sqrt, State(t, x, v, c.last.a), c.bound);
            SwingTimeAxis(sqrt, c.curr, target, c.bound) <= target.t - c.init.t ==> |r.states| == 4
  {
    var target := Limit(sqrt, State(t, x, v, c.last.a), c.bound);
    var r := MakeScheme(sqrt, c.(last := target));
    ReachableIgnoresTime(target, r.last, c.bound);
    r
  }

  /** NotifyTarget with DoMakeScheme as written (lines 96-105 calling lines 249-368). */
  function NotifyTargetAsWritten(sqrt: Sqrt, c: Controller, t: real, x: real, v: real): (r: Controller)
    requires IsSqrt(sqrt) && Admissible(c.bound)
    ensures var target := Limit(sqrt, State(t, x, v, c.last.a), c.bound);
            WellPlanned(c.(last := target), r) && Reachable(r.last, c.bound)
  {
    var target := Limit(sqrt, State(t, x, v, c.last.a), c.bound);
    var r := MakeSchemeAsWritten(sqrt, c.(last := target));
    ReachableIgnoresTime(target, r.last, c.bound);
    r
  }

  lemma ReachableIgnoresTime(s: State, s': State, b: Box)
    requires s.x == s'.x && s.v == s'.v
    ensures Reachable(s, b) <==> Reachable(s', b)
  {
  }
}
