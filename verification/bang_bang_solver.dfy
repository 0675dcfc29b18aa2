/**
 * The closed-form minimum-time solver of the bang-bang controller
 * (model/bang-bang-controller.cc, SwingTime): a double integrator with
 * acceleration limit am = zMax and velocity limit vm = yMax moves between two
 * (position, velocity) states. Time is in real seconds.
 */
module BangBangSolver {
  import opened Turntables
  import opened Results

  /** A kinematic state of one axis: time, position, velocity, acceleration. */
  datatype State = State(t: real, x: real, v: real, a: real)

  predicate PosInBound(s: State, b: Box) { s.x <= b.xMax && s.x >= b.xMin }
  predicate VelInBound(s: State, b: Box) { s.v <= b.yMax && s.v >= b.yMin }
  predicate AccInBound(s: State, b: Box) { s.a <= b.zMax && s.a >= b.zMin }
  predicate InBound(s: State, b: Box) { PosInBound(s, b) && VelInBound(s, b) && AccInBound(s, b) }

  // ---------------------------------------------------------------------------
  // Switching quantities. k1 and k2 are the accelerate and decelerate parabolas
  // through the initial state; c1 and c2 place the final state against them.
  // ---------------------------------------------------------------------------

  function C0(init: State, last: State): real { last.v - init.v }

  function C1(init: State, last: State, am: real): real
    requires am != 0.0
  {
    (last.x - last.v * last.v / (2.0 * am)) - (init.x - init.v * init.v / (2.0 * am))
  }

  function C2(init: State, last: State, am: real): real
    requires am != 0.0
  {
    (last.x + last.v * last.v / (2.0 * am)) - (init.x + init.v * init.v / (2.0 * am))
  }

  /** Accelerate first, then decelerate (first guard of the solver). */
  predicate UpCase(init: State, last: State, am: real)
    requires am != 0.0
  {
    (C0(init, last) >= 0.0 && C1(init, last, am) > 0.0) || (C0(init, last) < 0.0 && C2(init, last, am) > 0.0)
  }

  /** Decelerate first, then accelerate (second guard). */
  predicate DownCase(init: State, last: State, am: real)
    requires am != 0.0
  {
    (C0(init, last) >= 0.0 && C1(init, last, am) < 0.0) || (C0(init, last) < 0.0 && C2(init, last, am) < 0.0)
  }

  /** The final state lies on the accelerate parabola: one speeding phase (third guard). */
  predicate SpeedCase(init: State, last: State, am: real)
    requires am != 0.0
  {
    C0(init, last) >= 0.0 && C1(init, last, am) == 0.0
  }

  /** The fourth guard as the source writes it. */
  predicate BrakeGuardAsWritten(init: State, last: State, am: real)
    requires am != 0.0
  {
    C0(init, last) >= 0.0 && C2(init, last, am) == 0.0
  }

  /** The final state lies on the decelerate parabola: one braking phase. */
  predicate BrakeCase(init: State, last: State, am: real)
    requires am != 0.0
  {
    C0(init, last) < 0.0 && C2(init, last, am) == 0.0
  }

  /** The square of the switching velocity of the accelerate-first profile. */
  function UpArg(init: State, last: State, am: real): real {
    0.5 * (last.v * last.v + init.v * init.v) + am * (last.x - init.x)
  }

  /** The square of the switching velocity of the decelerate-first profile. */
  function DownArg(init: State, last: State, am: real): real {
    0.5 * (last.v * last.v + init.v * init.v) + am * (init.x - last.x)
  }

  /**
   * A planned profile: phase one lasts t1, the optional coasting phase ends at
   * t2 (t2 == t1 when there is none) and the manoeuvre ends at tf.
   */
  datatype Profile = Profile(coast: bool, t1: real, t2: real, tf: real)

  lemma SquareMonotone(p: real, q: real)
    requires 0.0 <= p <= q
    ensures p * p <= q * q
  {
  }

  /** A non-negative root whose square exceeds w * w exceeds w. */
  lemma RootExceeds(r: real, w: real)
    requires 0.0 <= r && r * r > w * w
    ensures r > w
  {
    if r <= w {
      SquareMonotone(r, w);
    }
  }

  /** In the accelerate-first case the switching velocity exceeds both end velocities. */
  lemma UpSwitching(sqrt: Sqrt, init: State, last: State, am: real)
    requires IsSqrt(sqrt) && am > 0.0 && UpCase(init, last, am)
    ensures UpArg(init, last, am) > 0.0
    ensures sqrt(UpArg(init, last, am)) > init.v && sqrt(UpArg(init, last, am)) > last.v
    ensures sqrt(UpArg(init, last, am)) * sqrt(UpArg(init, last, am))
         == 0.5 * (last.v * last.v + init.v * init.v) + am * (last.x - init.x)
  {
    var v0, vf, arg := init.v, last.v, UpArg(init, last, am);
    var k := 2.0 * am;
    assert v0 * v0 / k * k == v0 * v0 && vf * vf / k * k == vf * vf;
    if C0(init, last) >= 0.0 {
      assert C1(init, last, am) * k == k * (last.x - init.x) - vf * vf + v0 * v0;
      assert k * C1(init, last, am) > 0.0;
      assert arg - vf * vf == 0.5 * k * C1(init, last, am);
      assert arg > vf * vf;
      if v0 > 0.0 {
        SquareMonotone(v0, vf);
      }
    } else {
      assert C2(init, last, am) * k == k * (last.x - init.x) + vf * vf - v0 * v0;
      assert k * C2(init, last, am) > 0.0;
      assert arg - v0 * v0 == 0.5 * k * C2(init, last, am);
      assert arg > v0 * v0;
      if vf > 0.0 {
        SquareMonotone(vf, v0);
      }
    }
    var vs := sqrt(arg);
    assert vs * vs == arg;
    if v0 > 0.0 { RootExceeds(vs, v0); } else { assert vs * vs > 0.0; }
    if vf > 0.0 { RootExceeds(vs, vf); } else { assert vs * vs > 0.0; }
  }

  /**
   * The accelerate-first profile of lines 156-171 (and 278-308), once the
   * switching velocity vs is known: a trapezoid when vs exceeds vm, a
   * triangle otherwise.
   */
  function UpFormula(x0: real, v0: real, xf: real, vf: real, vm: real, am: real, vs: real): Profile
    requires am > 0.0 && vm > 0.0
  {
    if vs > vm then
      var xs1 := x0 + (vm * vm - v0 * v0) / (2.0 * am);
      var ts1 := (vm - v0) / am;
      var xs2 := xf + (vf * vf - vm * vm) / (2.0 * am);
      var ts2 := ts1 + (xs2 - xs1) / vm;
      Profile(true, ts1, ts2, ts2 - (vf - vm) / am)
    else
      var ts := (vs - v0) / am;
      Profile(false, ts, ts, 2.0 * ts + (v0 - vf) / am)
  }

  /** Both shapes of the accelerate-first profile take positive time. */
  lemma UpFormulaPositive(x0: real, v0: real, xf: real, vf: real, vm: real, am: real, vs: real)
    requires am > 0.0 && vm > 0.0 && vs > v0 && vs > vf
    requires vs * vs == 0.5 * (vf * vf + v0 * v0) + am * (xf - x0)
    ensures UpFormula(x0, v0, xf, vf, vm, am, vs).coast <==> vs > vm
    ensures UpFormula(x0, v0, xf, vf, vm, am, vs).tf > 0.0
  {
    if vs > vm {
      UpCoastValue(x0, v0, xf, vf, vm, am, vs);
      CoastDistance(x0, v0, xf, vf, vm, am, vs);
      CoastPositive(v0, vf, vm, am, vs, (xf + (vf * vf - vm * vm) / (2.0 * am)) - (x0 + (vm * vm - v0 * v0) / (2.0 * am)));
    } else {
      UpTriangleValue(x0, v0, xf, vf, vm, am, vs);
      TrianglePositive(v0, vf, am, vs);
    }
  }

  /** The accelerate-first profile with vs = sqrt(UpArg). */
  function UpProfile(sqrt: Sqrt, init: State, last: State, b: Box): (p: Profile)
    requires IsSqrt(sqrt) && SolverReady(b) && UpCase(init, last, b.zMax)
    ensures p.coast <==> UpArg(init, last, b.zMax) > b.yMax * b.yMax
    ensures p.tf > 0.0
  {
    var vs := sqrt(UpArg(init, last, b.zMax));
    UpSwitching(sqrt, init, last, b.zMax);
    assert vs * vs == UpArg(init, last, b.zMax);
    SaturationIff(vs, b.yMax);
    UpFormulaPositive(init.x, init.v, last.x, last.v, b.yMax, b.zMax, vs);
    UpFormula(init.x, init.v, last.x, last.v, b.yMax, b.zMax, vs)
  }

  /**
   * The decelerate-first profile of lines 175-190 (and 312-342), once the
   * (negative) switching velocity vs is known.
   */
  function DownFormula(x0: real, v0: real, xf: real, vf: real, vm: real, am: real, vs: real): Profile
    requires am > 0.0 && vm > 0.0
  {
    if vs < -vm then
      var xs1 := x0 - (vm * vm - v0 * v0) / (2.0 * am);
      var ts1 := (v0 + vm) / am;
      var xs2 := xf - (vf * vf - vm * vm) / (2.0 * am);
      var ts2 := ts1 - (xs2 - xs1) / vm;
      var tf := ts2 + (vf + vm) / am;
      Profile(true, ts1, ts2, tf)
    else
      var ts := -(vs - v0) / am;
      var tf := 2.0 * ts + (vf - v0) / am;
      Profile(false, ts, ts, tf)
  }

  /** The decelerate-first formulas are the accelerate-first ones on the reflected axis. */
  lemma DownFormulaIsMirror(x0: real, v0: real, xf: real, vf: real, vm: real, am: real, vs: real)
    requires am > 0.0 && vm > 0.0
    ensures DownFormula(x0, v0, xf, vf, vm, am, vs) == UpFormula(-x0, -v0, -xf, -vf, vm, am, -vs)
  {
    var k := 2.0 * am;
    var d, u := DownFormula(x0, v0, xf, vf, vm, am, vs), UpFormula(-x0, -v0, -xf, -vf, vm, am, -vs);
    if vs < -vm {
      var e1, e2 := (vm * vm - v0 * v0) / k, (vf * vf - vm * vm) / k;
      assert (vm * vm - (-v0) * (-v0)) / k == e1;
      assert (-vf) * (-vf) == vf * vf;
      var dx := (xf - e2) - (x0 - e1);
      assert (-xf + e2) - (-x0 + e1) == -dx;
      NegDiv(dx, vm);
      NegDiv(v0 + vm, am);
      assert (vm - -v0) / am == (v0 + vm) / am;
      assert (-vf - vm) / am == -((vf + vm) / am) by { NegDiv(vf + vm, am); }
    } else {
      assert (-vs - -v0) / am == -(vs - v0) / am;
      assert (-v0 - -vf) / am == (vf - v0) / am;
    }
  }

  lemma NegDiv(p: real, q: real)
    requires q != 0.0
    ensures (-p) / q == -(p / q)
  {
  }

  /** The decelerate-first profile with vs = -sqrt(DownArg). */
  function DownProfile(sqrt: Sqrt, init: State, last: State, b: Box): (p: Profile)
    requires IsSqrt(sqrt) && SolverReady(b) && DownCase(init, last, b.zMax)
    ensures p.coast <==> DownArg(init, last, b.zMax) > b.yMax * b.yMax
    ensures p.tf > 0.0
  {
    DownIsMirror(sqrt, init, last, b);
    var up := UpProfile(sqrt, Mirror(init), Mirror(last), b);
    assert up.coast <==> DownArg(init, last, b.zMax) > b.yMax * b.yMax;
    DownFormula(init.x, init.v, last.x, last.v, b.yMax, b.zMax, -sqrt(DownArg(init, last, b.zMax)))
  }

  /** The decelerate-first case is the accelerate-first case of the reflected axis. */
  lemma DownIsMirror(sqrt: Sqrt, init: State, last: State, b: Box)
    requires IsSqrt(sqrt) && SolverReady(b) && DownCase(init, last, b.zMax)
    ensures UpCase(Mirror(init), Mirror(last), b.zMax)
    ensures UpArg(Mirror(init), Mirror(last), b.zMax) == DownArg(init, last, b.zMax)
    ensures DownFormula(init.x, init.v, last.x, last.v, b.yMax, b.zMax, -sqrt(DownArg(init, last, b.zMax)))
         == UpProfile(sqrt, Mirror(init), Mirror(last), b)
  {
    MirrorCases(init, last, b.zMax);
    assert UpArg(Mirror(init), Mirror(last), b.zMax) == DownArg(init, last, b.zMax);
    DownFormulaIsMirror(init.x, init.v, last.x, last.v, b.yMax, b.zMax, -sqrt(DownArg(init, last, b.zMax)));
  }

  lemma SaturationIff(vs: real, vm: real)
    requires 0.0 <= vs && 0.0 < vm
    ensures vs > vm <==> vs * vs > vm * vm
  {
    if vs > vm { assert vs * vs > vm * vs > vm * vm; }
    if vs * vs > vm * vm { RootExceeds(vs, vm); }
  }

  /** The coasting distance of the trapezoidal profile, times am, is vs^2 - vm^2. */
  lemma CoastDistance(x0: real, v0: real, xf: real, vf: real, vm: real, am: real, vs: real)
    requires am > 0.0 && vs * vs == 0.5 * (vf * vf + v0 * v0) + am * (xf - x0)
    ensures ((xf + (vf * vf - vm * vm) / (2.0 * am)) - (x0 + (vm * vm - v0 * v0) / (2.0 * am))) * am
            == vs * vs - vm * vm
  {
    var k := 2.0 * am;
    var p, q := (vf * vf - vm * vm) / k, (vm * vm - v0 * v0) / k;
    assert p * k == vf * vf - vm * vm;
    assert q * k == vm * vm - v0 * v0;
    assert (p - q) * am == 0.5 * (vf * vf + v0 * v0) - vm * vm;
  }

  /**
   * The trapezoidal time is positive: with D the coasting distance,
   * am * vm * tf = vm^2 - vm (v0 + vf) + vs^2 > (vs - vm)^2 >= 0.
   */
  lemma CoastPositive(v0: real, vf: real, vm: real, am: real, vs: real, dist: real)
    requires am > 0.0 && vm > 0.0 && vs > vm && vs > v0 && vs > vf
    requires dist * am == vs * vs - vm * vm
    ensures (vm - v0) / am + dist / vm - (vf - vm) / am > 0.0
  {
    TrapezoidNumerator(v0, vf, vm, vs);
    TrapezoidScaled(v0, vf, vm, am, vs, dist);
    PositiveQuotient((vm - v0) / am + dist / vm - (vf - vm) / am, am * vm);
  }

  lemma TrapezoidNumerator(v0: real, vf: real, vm: real, vs: real)
    requires vm > 0.0 && vs > v0 && vs > vf
    ensures vs * vs + vm * vm - vm * (v0 + vf) > 0.0
  {
    assert vm * (v0 + vf) < vm * (2.0 * vs);
    assert (vs - vm) * (vs - vm) == vm * vm - 2.0 * vm * vs + vs * vs;
  }

  lemma TrapezoidScaled(v0: real, vf: real, vm: real, am: real, vs: real, dist: real)
    requires am > 0.0 && vm > 0.0
    requires dist * am == vs * vs - vm * vm
    ensures ((vm - v0) / am + dist / vm - (vf - vm) / am) * (am * vm) == vs * vs + vm * vm - vm * (v0 + vf)
  {
    var p1, d, p3 := (vm - v0) / am, dist / vm, (vf - vm) / am;
    assert p1 * am == vm - v0;
    assert p3 * am == vf - vm;
    assert d * vm == dist;
    assert p1 * (am * vm) == (vm - v0) * vm;
    assert p3 * (am * vm) == (vf - vm) * vm;
    assert d * (am * vm) == vs * vs - vm * vm;
  }

  /** The triangular time is positive: am * tf = 2 vs - v0 - vf > 0. */
  lemma TrianglePositive(v0: real, vf: real, am: real, vs: real)
    requires am > 0.0 && vs > v0 && vs > vf
    ensures 2.0 * ((vs - v0) / am) + (v0 - vf) / am > 0.0
  {
    var t1, t2 := (vs - v0) / am, (v0 - vf) / am;
    assert t1 * am == vs - v0 && t2 * am == v0 - vf;
    assert (2.0 * t1 + t2) * am == 2.0 * vs - v0 - vf;
    PositiveQuotient(2.0 * t1 + t2, am);
  }

  lemma PositiveQuotient(t: real, m: real)
    requires m > 0.0 && t * m > 0.0
    ensures t > 0.0
  {
  }

  /** Reflection of an axis: position and velocity change sign. */
  function Mirror(s: State): State { s.(x := -s.x, v := -s.v) }

  /** The decelerate-first guard is the accelerate-first guard of the reflected states. */
  lemma MirrorCases(init: State, last: State, am: real)
    requires am > 0.0
    ensures DownCase(init, last, am) <==> UpCase(Mirror(init), Mirror(last), am)
    ensures C0(Mirror(init), Mirror(last)) == -C0(init, last)
    ensures C1(Mirror(init), Mirror(last), am) == -C2(init, last, am)
    ensures C2(Mirror(init), Mirror(last), am) == -C1(init, last, am)
  {
  }

  // ---------------------------------------------------------------------------
  // The solver proper
  // ---------------------------------------------------------------------------

  /** Exactly one of the four corrected guards holds for every pair of states. */
  lemma GuardsPartition(init: State, last: State, am: real)
    requires am > 0.0
    ensures UpCase(init, last, am) || DownCase(init, last, am) || SpeedCase(init, last, am) || BrakeCase(init, last, am)
    ensures !(UpCase(init, last, am) && DownCase(init, last, am))
    ensures SpeedCase(init, last, am) ==> !UpCase(init, last, am) && !DownCase(init, last, am) && !BrakeCase(init, last, am)
    ensures BrakeCase(init, last, am) ==> !UpCase(init, last, am) && !DownCase(init, last, am)
  {
  }

  /**
   * The minimum time to move one axis from init to last (lines 137-203),
   * with the fourth guard corrected to c0 < 0 && c2 == 0.
   */
  function SwingTimeAxis(sqrt: Sqrt, init: State, last: State, b: Box): (tf: real)
    requires IsSqrt(sqrt) && SolverReady(b)
    ensures 0.0 <= tf
    ensures tf == 0.0 <==> init.x == last.x && init.v == last.v
  {
    var am := b.zMax;
    if UpCase(init, last, am) then
      StillOnlyWhenSpeeding(init, last, am);
      UpProfile(sqrt, init, last, b).tf
    else if DownCase(init, last, am) then
      StillOnlyWhenSpeeding(init, last, am);
      DownProfile(sqrt, init, last, b).tf
    else if SpeedCase(init, last, am) then
      var tf := (last.v - init.v) / am;
      SpeedTime(init, last, am);
      tf
    else
      // the remaining case is c0 < 0 && c2 == 0: a single braking phase
      assert BrakeCase(init, last, am);
      (init.v - last.v) / am
  }

  /** Equal end states fall under the speeding guard. */
  lemma StillOnlyWhenSpeeding(init: State, last: State, am: real)
    requires am > 0.0
    ensures init.x == last.x && init.v == last.v ==> SpeedCase(init, last, am)
  {
  }

  lemma SpeedTime(init: State, last: State, am: real)
    requires am > 0.0 && SpeedCase(init, last, am)
    ensures (last.v - init.v) / am == 0.0 <==> init.x == last.x && init.v == last.v
  {
    if last.v == init.v {
      assert C1(init, last, am) == last.x - init.x;
    }
  }

  /**
   * The solver as written: the fourth guard repeats c0 >= 0, which the first
   * three guards already cover, so a pure braking manoeuvre reaches the final
   * assertion. None stands for that assertion.
   */
  function SwingTimeAxisAsWritten(sqrt: Sqrt, init: State, last: State, b: Box): (r: Option<real>)
    requires IsSqrt(sqrt) && SolverReady(b)
    ensures r.None? <==> BrakeCase(init, last, b.zMax)
    ensures r.Some? ==> r.value == SwingTimeAxis(sqrt, init, last, b)
  {
    var am := b.zMax;
    var inv := 1.0 / am;
    if UpCase(init, last, am) then
      Some(UpProfile(sqrt, init, last, b).tf)
    else if DownCase(init, last, am) then
      Some(DownProfile(sqrt, init, last, b).tf)
    else if SpeedCase(init, last, am) then
      Some((last.v - init.v) / am)
    else if BrakeGuardAsWritten(init, last, am) then
      Some(-(last.v - init.v) * inv)
    else
      None
  }

  /**
   * A concrete pure-braking move, from velocity 1 at position 0 to rest at
   * position 0.5 with unit acceleration: the solver as written rejects it.
   */
  lemma PureBrakingRejected(sqrt: Sqrt)
    requires IsSqrt(sqrt)
    ensures SwingTimeAxisAsWritten(sqrt, State(0.0, 0.0, 1.0, 0.0), State(0.0, 0.5, 0.0, 0.0), Box(-10.0, 10.0, -2.0, 2.0, -1.0, 1.0)) == None
  {
    assert BrakeCase(State(0.0, 0.0, 1.0, 0.0), State(0.0, 0.5, 0.0, 0.0), 1.0);
  }

  /** The corrected solver times the same move at one second. */
  lemma PureBrakingTimed(sqrt: Sqrt)
    requires IsSqrt(sqrt)
    ensures SwingTimeAxis(sqrt, State(0.0, 0.0, 1.0, 0.0), State(0.0, 0.5, 0.0, 0.0), Box(-10.0, 10.0, -2.0, 2.0, -1.0, 1.0)) == 1.0
  {
    SingleBrakeTime(sqrt, State(0.0, 0.0, 1.0, 0.0), State(0.0, 0.5, 0.0, 0.0), Box(-10.0, 10.0, -2.0, 2.0, -1.0, 1.0));
  }

  /** A single braking phase lasts the velocity drop divided by the braking rate. */
  lemma SingleBrakeTime(sqrt: Sqrt, init: State, last: State, b: Box)
    requires IsSqrt(sqrt) && SolverReady(b) && BrakeCase(init, last, b.zMax)
    ensures SwingTimeAxis(sqrt, init, last, b) == (init.v - last.v) / b.zMax
  {
    GuardsPartition(init, last, b.zMax);
  }

  /** Velocity reversal of a state: the same point travelled backwards. */
  function Reverse(s: State): State { s.(v := -s.v) }

  /** Reversing a move swaps the accelerate-first and decelerate-first guards. */
  lemma ReverseGuards(p: State, q: State, am: real)
    requires am > 0.0
    ensures UpCase(p, q, am) <==> DownCase(Reverse(q), Reverse(p), am)
    ensures DownCase(p, q, am) <==> UpCase(Reverse(q), Reverse(p), am)
    ensures SpeedCase(p, q, am) <==> SpeedCase(Reverse(q), Reverse(p), am)
    ensures BrakeCase(p, q, am) <==> BrakeCase(Reverse(q), Reverse(p), am)
  {
    var p', q' := Reverse(q), Reverse(p);
    assert C0(p', q') == C0(p, q);
    assert C1(p', q', am) == -C1(p, q, am);
    assert C2(p', q', am) == -C2(p, q, am);
  }

  /**
   * Time reversal: the minimum time from p to q equals the minimum time from
   * q to p with both velocities negated.
   */
  lemma {:induction false} SwingTimeReversible(sqrt: Sqrt, p: State, q: State, b: Box)
    requires IsSqrt(sqrt) && SolverReady(b)
    ensures SwingTimeAxis(sqrt, p, q, b) == SwingTimeAxis(sqrt, Reverse(q), Reverse(p), b)
  {
    var am := b.zMax;
    ReverseGuards(p, q, am);
    GuardsPartition(p, q, am);
    if UpCase(p, q, am) {
      ReversibleUp(sqrt, p, q, b);
    } else if DownCase(p, q, am) {
      ReversibleUp(sqrt, Reverse(q), Reverse(p), b);
      assert Reverse(Reverse(p)) == p && Reverse(Reverse(q)) == q;
    } else if SpeedCase(p, q, am) {
      assert SwingTimeAxis(sqrt, Reverse(q), Reverse(p), b) == (Reverse(p).v - Reverse(q).v) / am;
    } else {
      SingleBrakeTime(sqrt, p, q, b);
      SingleBrakeTime(sqrt, Reverse(q), Reverse(p), b);
    }
  }

  /** Time reversal of an accelerate-first move. */
  lemma ReversibleUp(sqrt: Sqrt, p: State, q: State, b: Box)
    requires IsSqrt(sqrt) && SolverReady(b) && UpCase(p, q, b.zMax)
    ensures SwingTimeAxis(sqrt, p, q, b) == SwingTimeAxis(sqrt, Reverse(q), Reverse(p), b)
  {
    UpTimeValue(sqrt, p, q, b);
    ReversedUpValue(sqrt, p, q, b);
    UpTimeSwap(sqrt, p, q, b);
  }

  lemma UpTimeSwap(sqrt: Sqrt, p: State, q: State, b: Box)
    requires IsSqrt(sqrt) && SolverReady(b) && UpCase(p, q, b.zMax)
    ensures UpFormula(p.x, p.v, q.x, q.v, b.yMax, b.zMax, sqrt(UpArg(p, q, b.zMax))).tf
         == UpFormula(-q.x, q.v, -p.x, p.v, b.yMax, b.zMax, sqrt(UpArg(p, q, b.zMax))).tf
  {
    UpSwitching(sqrt, p, q, b.zMax);
    UpFormulaSwap(p.x, p.v, q.x, q.v, b.yMax, b.zMax, sqrt(UpArg(p, q, b.zMax)));
  }

  lemma UpTimeValue(sqrt: Sqrt, p: State, q: State, b: Box)
    requires IsSqrt(sqrt) && SolverReady(b) && UpCase(p, q, b.zMax)
    ensures SwingTimeAxis(sqrt, p, q, b) == UpFormula(p.x, p.v, q.x, q.v, b.yMax, b.zMax, sqrt(UpArg(p, q, b.zMax))).tf
  {
  }

  lemma ReversedUpValue(sqrt: Sqrt, p: State, q: State, b: Box)
    requires IsSqrt(sqrt) && SolverReady(b) && UpCase(p, q, b.zMax)
    ensures SwingTimeAxis(sqrt, Reverse(q), Reverse(p), b) == UpFormula(-q.x, q.v, -p.x, p.v, b.yMax, b.zMax, sqrt(UpArg(p, q, b.zMax))).tf
  {
    ReverseGuards(p, q, b.zMax);
    ReversedAsMirror(sqrt, Reverse(q), Reverse(p), b);
    UpArgReversed(p, q, b.zMax);
    var mp, mq := Mirror(Reverse(q)), Mirror(Reverse(p));
    assert mp.x == -q.x && mp.v == q.v && mq.x == -p.x && mq.v == p.v;
    assert UpProfile(sqrt, mp, mq, b).tf == UpFormula(mp.x, mp.v, mq.x, mq.v, b.yMax, b.zMax, sqrt(UpArg(mp, mq, b.zMax))).tf;
  }

  /** Reversing and reflecting a move keeps its switching argument. */
  lemma UpArgReversed(p: State, q: State, am: real)
    ensures UpArg(Mirror(Reverse(q)), Mirror(Reverse(p)), am) == UpArg(p, q, am)
  {
    var mp, mq := Mirror(Reverse(q)), Mirror(Reverse(p));
    assert mp.v == q.v && mq.v == p.v;
    assert mq.x - mp.x == q.x - p.x;
    MulEq(mq.x - mp.x, q.x - p.x, am);
    assert am * (mq.x - mp.x) == am * (q.x - p.x);
  }

  /** A decelerate-first move takes as long as its reflection. */
  lemma ReversedAsMirror(sqrt: Sqrt, p: State, q: State, b: Box)
    requires IsSqrt(sqrt) && SolverReady(b) && DownCase(p, q, b.zMax)
    ensures UpCase(Mirror(p), Mirror(q), b.zMax)
    ensures SwingTimeAxis(sqrt, p, q, b) == UpProfile(sqrt, Mirror(p), Mirror(q), b).tf
  {
    GuardsPartition(p, q, b.zMax);
    DownIsMirror(sqrt, p, q, b);
  }

  /** The trapezoid branch of UpFormula, unfolded. */
  lemma UpCoastValue(x0: real, v0: real, xf: real, vf: real, vm: real, am: real, vs: real)
    requires am > 0.0 && vm > 0.0 && vs > vm
    ensures UpFormula(x0, v0, xf, vf, vm, am, vs).tf
         == (vm - v0) / am + ((xf + (vf * vf - vm * vm) / (2.0 * am)) - (x0 + (vm * vm - v0 * v0) / (2.0 * am))) / vm - (vf - vm) / am
  {
  }

  /** The triangle branch of UpFormula, unfolded. */
  lemma UpTriangleValue(x0: real, v0: real, xf: real, vf: real, vm: real, am: real, vs: real)
    requires am > 0.0 && vm > 0.0 && vs <= vm
    ensures UpFormula(x0, v0, xf, vf, vm, am, vs).tf == 2.0 * ((vs - v0) / am) + (v0 - vf) / am
  {
  }

  /** The accelerate-first trapezoid time, scaled to clear its denominators. */
  lemma UpCoastScaled(x0: real, v0: real, xf: real, vf: real, vm: real, am: real, vs: real)
    requires am > 0.0 && vm > 0.0 && vs > vm
    requires vs * vs == 0.5 * (vf * vf + v0 * v0) + am * (xf - x0)
    ensures UpFormula(x0, v0, xf, vf, vm, am, vs).tf * (am * vm) == vs * vs + vm * vm - vm * (v0 + vf)
  {
    var gap := (xf + (vf * vf - vm * vm) / (2.0 * am)) - (x0 + (vm * vm - v0 * v0) / (2.0 * am));
    UpCoastValue(x0, v0, xf, vf, vm, am, vs);
    MulEq(UpFormula(x0, v0, xf, vf, vm, am, vs).tf, (vm - v0) / am + gap / vm - (vf - vm) / am, am * vm);
    CoastDistance(x0, v0, xf, vf, vm, am, vs);
    TrapezoidScaled(v0, vf, vm, am, vs, gap);
  }

  /** The accelerate-first triangle time, scaled to clear its denominator. */
  lemma UpTriangleScaled(x0: real, v0: real, xf: real, vf: real, vm: real, am: real, vs: real)
    requires am > 0.0 && vm > 0.0 && vs <= vm
    ensures UpFormula(x0, v0, xf, vf, vm, am, vs).tf * am == 2.0 * vs - v0 - vf
  {
    UpTriangleValue(x0, v0, xf, vf, vm, am, vs);
    MulEq(UpFormula(x0, v0, xf, vf, vm, am, vs).tf, 2.0 * ((vs - v0) / am) + (v0 - vf) / am, am);
    TriangleScaled(v0, vf, am, vs);
  }

  lemma TriangleScaled(v0: real, vf: real, am: real, vs: real)
    requires am > 0.0
    ensures (2.0 * ((vs - v0) / am) + (v0 - vf) / am) * am == 2.0 * vs - v0 - vf
  {
    var t1, t2 := (vs - v0) / am, (v0 - vf) / am;
    assert t1 * am == vs - v0 && t2 * am == v0 - vf;
  }

  lemma MulEq(p: real, q: real, m: real)
    requires p == q
    ensures p * m == q * m
  {
  }

  /**
   * The accelerate-first time depends on the end velocities only through
   * their sum, so exchanging the ends (and reflecting positions) keeps it.
   */
  lemma UpFormulaSwap(x0: real, v0: real, xf: real, vf: real, vm: real, am: real, vs: real)
    requires am > 0.0 && vm > 0.0
    requires vs * vs == 0.5 * (vf * vf + v0 * v0) + am * (xf - x0)
    ensures UpFormula(x0, v0, xf, vf, vm, am, vs).tf == UpFormula(-xf, vf, -x0, v0, vm, am, vs).tf
  {
    if vs > vm {
      UpArgSwapped(x0, v0, xf, vf, am, vs);
      UpCoastClosed(x0, v0, xf, vf, vm, am, vs, v0 + vf);
      UpCoastClosed(-xf, vf, -x0, v0, vm, am, vs, v0 + vf);
    } else {
      UpTriangleClosed(x0, v0, xf, vf, vm, am, vs, v0 + vf);
      UpTriangleClosed(-xf, vf, -x0, v0, vm, am, vs, v0 + vf);
    }
  }

  /** Exchanging and reflecting the ends keeps the switching argument. */
  lemma UpArgSwapped(x0: real, v0: real, xf: real, vf: real, am: real, vs: real)
    requires vs * vs == 0.5 * (vf * vf + v0 * v0) + am * (xf - x0)
    ensures vs * vs == 0.5 * (v0 * v0 + vf * vf) + am * (-x0 - -xf)
  {
    assert -x0 - -xf == xf - x0;
  }

  /** The trapezoid time in closed form: it depends on the end velocities through their sum only. */
  function CoastTime(vs: real, vm: real, am: real, sum: real): real
    requires am > 0.0 && vm > 0.0
  {
    (vs * vs + vm * vm - vm * sum) / (am * vm)
  }

  /** The triangle time in closed form. */
  function TriangleTime(vs: real, am: real, sum: real): real
    requires am > 0.0
  {
    (2.0 * vs - sum) / am
  }

  lemma UpCoastClosed(x0: real, v0: real, xf: real, vf: real, vm: real, am: real, vs: real, sum: real)
    requires am > 0.0 && vm > 0.0 && vs > vm && sum == v0 + vf
    requires vs * vs == 0.5 * (vf * vf + v0 * v0) + am * (xf - x0)
    ensures UpFormula(x0, v0, xf, vf, vm, am, vs).tf == CoastTime(vs, vm, am, sum)
  {
    UpCoastScaled(x0, v0, xf, vf, vm, am, vs);
    MulSum(vm, v0, vf, sum);
    DivideOut(UpFormula(x0, v0, xf, vf, vm, am, vs).tf, am * vm, vs * vs + vm * vm - vm * sum);
  }

  lemma UpTriangleClosed(x0: real, v0: real, xf: real, vf: real, vm: real, am: real, vs: real, sum: real)
    requires am > 0.0 && vm > 0.0 && vs <= vm && sum == v0 + vf
    ensures UpFormula(x0, v0, xf, vf, vm, am, vs).tf == TriangleTime(vs, am, sum)
  {
    UpTriangleScaled(x0, v0, xf, vf, vm, am, vs);
    DivideOut(UpFormula(x0, v0, xf, vf, vm, am, vs).tf, am, 2.0 * vs - sum);
  }

  lemma MulSum(m: real, p: real, q: real, sum: real)
    requires sum == p + q
    ensures m * sum == m * (p + q)
  {
  }

  lemma DivideOut(t: real, m: real, e: real)
    requires m > 0.0 && t * m == e
    ensures t == e / m
  {
  }

  /** The trapezoid is used exactly when the switching speed would exceed vm. */
  lemma {:induction false} SaturatesIffBeyondLimit(sqrt: Sqrt, init: State, last: State, b: Box)
    requires IsSqrt(sqrt) && SolverReady(b) && UpCase(init, last, b.zMax)
    ensures UpProfile(sqrt, init, last, b).coast <==> sqrt(UpArg(init, last, b.zMax)) > b.yMax
  {
    UpSwitching(sqrt, init, last, b.zMax);
    SaturationIff(sqrt(UpArg(init, last, b.zMax)), b.yMax);
  }

  /** The two-axis state of a turntable at time zero, at rest in acceleration. */
  function AzimuthState(p: CoordTurntable): State { State(0.0, p.azimuth, p.azimuthRate, 0.0) }
  function PitchState(p: CoordTurntable): State { State(0.0, p.pitch, p.pitchRate, 0.0) }

  /**
   * The time to swing a two-axis turntable between two pointings (lines
   * 119-135): both axes move at once, so the slower one decides.
   */
  function SwingTime(sqrt: Sqrt, p: CoordTurntable, q: CoordTurntable, l: Limits): (t: real)
    requires IsSqrt(sqrt) && LimitsReady(l)
    ensures t >= SwingTimeAxis(sqrt, AzimuthState(p), AzimuthState(q), l.azimuth)
    ensures t >= SwingTimeAxis(sqrt, PitchState(p), PitchState(q), l.pitch)
    ensures t == SwingTimeAxis(sqrt, AzimuthState(p), AzimuthState(q), l.azimuth)
         || t == SwingTimeAxis(sqrt, PitchState(p), PitchState(q), l.pitch)
    ensures t == 0.0 <==> p == q
  {
    var tAz := SwingTimeAxis(sqrt, AzimuthState(p), AzimuthState(q), l.azimuth);
    var tPt := SwingTimeAxis(sqrt, PitchState(p), PitchState(q), l.pitch);
    if tAz > tPt then tAz else tPt
  }

  /**
   * The two-axis swing time with the single-axis solver as written: there
   * is no time (the source's assertion fails) exactly when either axis needs
   * a pure braking move, and otherwise it is the corrected SwingTime.
   */
  function SwingTimeAsWritten(sqrt: Sqrt, p: CoordTurntable, q: CoordTurntable, l: Limits): (r: Option<real>)
    requires IsSqrt(sqrt) && LimitsReady(l)
    ensures r.None? <==> (BrakeCase(AzimuthState(p), AzimuthState(q), l.azimuth.zMax)
                          || BrakeCase(PitchState(p), PitchState(q), l.pitch.zMax))
    ensures r.Some? ==> r.value == SwingTime(sqrt, p, q, l)
  {
    var tAz := SwingTimeAxisAsWritten(sqrt, AzimuthState(p), AzimuthState(q), l.azimuth);
    var tPt := SwingTimeAxisAsWritten(sqrt, PitchState(p), PitchState(q), l.pitch);
    if tAz.None? || tPt.None? then None
    else Some(if tAz.value > tPt.value then tAz.value else tPt.value)
  }
}
