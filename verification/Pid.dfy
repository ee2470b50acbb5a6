/** The discrete PID with back-calculation anti-windup (src/pyems/control/pid.py). */
module Pid {
  import opened Num

  /** `root` is what math.sqrt(ti * td) returns, for ti = kp / ki and td = kd / kp; nFilter None is an infinite filter. */
  datatype Gains = Gains(kp: real, ki: real, kd: real, nFilter: Option<real>, tt: Option<real>, root: real) {
    /** The derivative filter does not divide by zero. */
    predicate Divides(dt: real) {
      kd != 0.0 && nFilter.Some? && kp != 0.0 ==> nFilter.value != 0.0 && kd / (kp * nFilter.value) + dt != 0.0
    }
  }

  function TrackingTime(g: Gains): real {
    if g.tt.Some? && g.tt.value > 0.0 then g.tt.value
    else
      var td := if g.kp > 0.0 then g.kd / g.kp else 0.0;
      if g.ki > 0.0 && td > 0.0 then g.root
      else if g.ki > 0.0 then g.kp / g.ki
      else 1.0
  }

  /** Fraction of a saturation excess fed back into the integrator. */
  function Beta(g: Gains, dt: real): real {
    if TrackingTime(g) > 0.0 then Min(dt / TrackingTime(g), 1.0) else 0.0
  }

  datatype State = State(
    outMin: Ext,
    outMax: Ext,
    integral: real,
    deriv: real,
    prevMeas: Option<real>,
    prevError: Option<real>,
    lastOutput: real,
    initialized: bool)
  {
    /** Before the first step there is nothing to differentiate. */
    predicate Ok() {
      initialized ==> prevMeas.Some? && prevError.Some?
    }
  }

  function Fresh(outMin: Ext, outMax: Ext, integral: real): State {
    State(outMin, outMax, integral, 0.0, None, None, 0.0, false)
  }

  function ClampOut(s: State, u: real): Ext {
    MinE(MaxE(Fin(u), s.outMin), s.outMax)
  }

  /** The output bounds leave room for a finite command. */
  predicate Finite(s: State) {
    Le(s.outMin, s.outMax) && s.outMin != PosInf && s.outMax != NegInf
  }

  function Derivative(g: Gains, onMeasurement: bool, s: State, error: real, measurement: real, dt: real): real
    requires s.Ok() && dt > 0.0 && g.Divides(dt)
  {
    if g.kd == 0.0 || !s.initialized then s.deriv
    else
      var raw := if onMeasurement then -(measurement - s.prevMeas.value) / dt else (error - s.prevError.value) / dt;
      if g.nFilter.Some? then
        var alpha := if g.kp != 0.0 then dt / (g.kd / (g.kp * g.nFilter.value) + dt) else 1.0;
        s.deriv + Min(Max(alpha, 0.0), 1.0) * (g.kd * raw - s.deriv)
      else g.kd * raw
  }

  function DTerm(g: Gains, onMeasurement: bool, s: State, error: real, measurement: real, dt: real): real
    requires s.Ok() && dt > 0.0 && g.Divides(dt)
  {
    if g.kd == 0.0 || !s.initialized then 0.0 else Derivative(g, onMeasurement, s, error, measurement, dt)
  }

  function Tracked(g: Gains, s: State, applied: real, requested: real, dt: real): State {
    if g.ki == 0.0 then s
    else s.(integral := s.integral + Beta(g, dt) * (applied - requested))
  }

  function Stepped(g: Gains, onMeasurement: bool, s: State, setpoint: real, measurement: real, dt: real): State
    requires s.Ok() && Finite(s) && dt > 0.0 && g.Divides(dt)
  {
    var error := setpoint - measurement;
    var candidate := s.integral + g.ki * error * dt;
    var u := g.kp * error + candidate + DTerm(g, onMeasurement, s, error, measurement, dt);
    var clamped := ClampOut(s, u).w;
    s.(integral := if g.ki != 0.0 && clamped != u then candidate + Beta(g, dt) * (clamped - u) else candidate,
       deriv := Derivative(g, onMeasurement, s, error, measurement, dt),
       prevMeas := Some(measurement),
       prevError := Some(error),
       lastOutput := clamped,
       initialized := true)
  }

  class PIDController {
    const gains: Gains
    const onMeasurement: bool
    var outMin: Ext
    var outMax: Ext
    var integral: real
    var deriv: real
    var prevMeas: Option<real>
    var prevError: Option<real>
    var lastOutput: real
    var initialized: bool

    function View(): State
      reads this
    {
      State(outMin, outMax, integral, deriv, prevMeas, prevError, lastOutput, initialized)
    }

    ghost predicate Valid()
      reads this
    {
      View().Ok()
    }

    constructor (gains: Gains, outMin: Ext, outMax: Ext, onMeasurement: bool)
      requires Le(outMin, outMax)
      ensures Valid() && this.gains == gains && this.onMeasurement == onMeasurement
      ensures this.outMin == outMin && this.outMax == outMax && integral == 0.0 && !initialized
      ensures View() == Fresh(outMin, outMax, 0.0)
    {
      this.gains, this.onMeasurement := gains, onMeasurement;
      this.outMin, this.outMax := outMin, outMax;
      integral, deriv, prevMeas, prevError, lastOutput, initialized := 0.0, 0.0, None, None, 0.0, false;
    }

    method Reset(seed: real)
      modifies this
      ensures Valid() && View() == Fresh(old(outMin), old(outMax), seed)
      ensures outMin == old(outMin) && outMax == old(outMax) && integral == seed && !initialized
    {
      integral, deriv, prevMeas, prevError, lastOutput, initialized := seed, 0.0, None, None, 0.0, false;
    }

    /** False stands for the ValueError on dt <= 0. */
    method TrackAppliedOutput(applied: real, requested: real, dt: real) returns (ok: bool)
      requires Valid()
      modifies this`integral
      ensures Valid() && ok == (dt > 0.0)
      ensures View() == if ok then Tracked(gains, old(View()), applied, requested, dt) else old(View())
    {
      if dt <= 0.0 { return false; }
      if gains.ki == 0.0 { return true; }
      integral := integral + Beta(gains, dt) * (applied - requested);
      return true;
    }

    method Step(setpoint: real, measurement: real, dt: real) returns (ok: bool, u: real)
      requires Valid() && Finite(View()) && (dt > 0.0 ==> gains.Divides(dt))
      modifies this
      ensures Valid() && ok == (dt > 0.0)
      ensures ok ==> View() == Stepped(gains, onMeasurement, old(View()), setpoint, measurement, dt) && u == lastOutput
      ensures !ok ==> View() == old(View())
    {
      hide Derivative, DTerm, Beta;
      u := 0.0;
      if dt <= 0.0 { return false, u; }
      var error := setpoint - measurement;
      var d := DTerm(gains, onMeasurement, View(), error, measurement, dt);
      var nextDeriv := Derivative(gains, onMeasurement, View(), error, measurement, dt);
      var candidate := integral + gains.ki * error * dt;
      var unclamped := gains.kp * error + candidate + d;
      u := MinE(MaxE(Fin(unclamped), outMin), outMax).w;
      assert u == ClampOut(View(), unclamped).w;
      hide ClampOut;
      ghost var next := Stepped(gains, onMeasurement, View(), setpoint, measurement, dt);
      assert next.integral == if gains.ki != 0.0 && u != unclamped then candidate + Beta(gains, dt) * (u - unclamped) else candidate;
      assert next == View().(integral := next.integral, deriv := nextDeriv, prevMeas := Some(measurement),
                             prevError := Some(error), lastOutput := u, initialized := true);
      hide Stepped;
      integral := candidate;
      if gains.ki != 0.0 && u != unclamped {
        integral := integral + Beta(gains, dt) * (u - unclamped);
      }
      deriv, prevMeas, prevError := nextDeriv, Some(measurement), Some(error);
      lastOutput, initialized := u, true;
      return true, u;
    }
  }

  lemma NoKick(g: Gains, onMeasurement: bool, lo: Ext, hi: Ext, seed: real, error: real, measurement: real, dt: real)
    requires dt > 0.0 && g.Divides(dt)
    ensures DTerm(g, onMeasurement, Fresh(lo, hi, seed), error, measurement, dt) == 0.0
    ensures Derivative(g, onMeasurement, Fresh(lo, hi, seed), error, measurement, dt) == 0.0
  {}

  lemma ZeroTimes(a: real, error: real, b: real)
    requires error == 0.0
    ensures a * error == 0.0 && a * error * b == 0.0
  {}

  /** Nothing before a reset shows after it: no error and no measurement makes a derivative kick in
      the first step, and at the setpoint it puts out the seed, and keeps it, if the bounds allow. */
  lemma ResetIsBumpless(g: Gains, onMeasurement: bool, lo: Ext, hi: Ext, seed: real, setpoint: real, measurement: real, dt: real)
    requires Finite(Fresh(lo, hi, seed)) && dt > 0.0 && g.Divides(dt)
    ensures var t := Stepped(g, onMeasurement, Fresh(lo, hi, seed), setpoint, measurement, dt);
            && DTerm(g, onMeasurement, Fresh(lo, hi, seed), setpoint - measurement, measurement, dt) == t.deriv == 0.0
            && (setpoint == measurement && Le(lo, Fin(seed)) && Le(Fin(seed), hi) ==> t.lastOutput == t.integral == seed)
  {
    NoKick(g, onMeasurement, lo, hi, seed, setpoint - measurement, measurement, dt);
    hide Beta, DTerm, Derivative, Gains.Divides;
    if setpoint == measurement {
      ZeroTimes(g.kp, setpoint - measurement, dt);
      ZeroTimes(g.ki, setpoint - measurement, dt);
    }
  }

  // --- the terms of an unsaturated controller -----------------------------------------------------

  datatype Input = Input(setpoint: real, measurement: real)

  function Fed(g: Gains, onMeasurement: bool, s: State, inputs: seq<Input>, dt: real): (t: State)
    requires s.Ok() && Finite(s) && dt > 0.0 && g.Divides(dt)
    ensures t.Ok() && t.outMin == s.outMin && t.outMax == s.outMax
  {
    if inputs == [] then s
    else
      var last := inputs[|inputs| - 1];
      Stepped(g, onMeasurement, Fed(g, onMeasurement, s, inputs[..|inputs| - 1], dt), last.setpoint, last.measurement, dt)
  }

  function ErrorSum(inputs: seq<Input>): real {
    if inputs == [] then 0.0
    else ErrorSum(inputs[..|inputs| - 1]) + (inputs[|inputs| - 1].setpoint - inputs[|inputs| - 1].measurement)
  }

  /** The next step's demand lies within the output bounds. */
  ghost predicate Free(g: Gains, onMeasurement: bool, s: State, next: Input, dt: real)
    requires s.Ok() && dt > 0.0 && g.Divides(dt)
  {
    var u := Fin(Demand(g, onMeasurement, s, next.setpoint - next.measurement, next.measurement, dt));
    Le(s.outMin, u) && Le(u, s.outMax)
  }

  function Demand(g: Gains, onMeasurement: bool, s: State, error: real, measurement: real, dt: real): real
    requires s.Ok() && dt > 0.0 && g.Divides(dt)
  {
    g.kp * error + (s.integral + g.ki * error * dt) + DTerm(g, onMeasurement, s, error, measurement, dt)
  }

  /** What the errors so far contribute. */
  function Integrated(g: Gains, dt: real, errors: real): real {
    g.ki * dt * errors
  }

  lemma DemandIs(g: Gains, onMeasurement: bool, s: State, error: real, measurement: real, dt: real, p: real, i: real)
    requires s.Ok() && dt > 0.0 && g.Divides(dt) && p == g.kp * error && i == g.ki * error * dt
    ensures Demand(g, onMeasurement, s, error, measurement, dt) ==
            p + (s.integral + i) + DTerm(g, onMeasurement, s, error, measurement, dt)
  {
    hide DTerm, Gains.Divides;
  }

  ghost predicate AllFree(g: Gains, onMeasurement: bool, s: State, inputs: seq<Input>, dt: real)
    requires s.Ok() && Finite(s) && dt > 0.0 && g.Divides(dt)
  {
    forall k :: 0 <= k < |inputs| ==> Free(g, onMeasurement, Fed(g, onMeasurement, s, inputs[..k], dt), inputs[k], dt)
  }

  lemma FreeStep(g: Gains, onMeasurement: bool, s: State, next: Input, dt: real, error: real, p: real, i: real)
    requires s.Ok() && Finite(s) && dt > 0.0 && g.Divides(dt) && Free(g, onMeasurement, s, next, dt)
    requires error == next.setpoint - next.measurement && p == g.kp * error && i == g.ki * error * dt
    ensures var t := Stepped(g, onMeasurement, s, next.setpoint, next.measurement, dt);
            && t.integral == s.integral + i
            && t.lastOutput == p + t.integral + DTerm(g, onMeasurement, s, error, next.measurement, dt)
  {
    hide Beta, Derivative, DTerm, Gains.Divides, Stepped, Demand;
    DemandIs(g, onMeasurement, s, error, next.measurement, dt, p, i);
    SameProducts(g.kp, g.ki, dt, error, next.setpoint - next.measurement);
    SteppedFree(g, onMeasurement, s, next.setpoint, next.measurement, dt, p, s.integral + i,
                DTerm(g, onMeasurement, s, error, next.measurement, dt));
  }

  lemma SameProducts(kp: real, ki: real, dt: real, a: real, b: real)
    requires a == b
    ensures kp * a == kp * b && ki * a * dt == ki * b * dt
  {}

  lemma SteppedFree(
    g: Gains, onMeasurement: bool, s: State, setpoint: real, measurement: real, dt: real,
    p: real, candidate: real, d: real)
    requires s.Ok() && Finite(s) && dt > 0.0 && g.Divides(dt)
    requires p == g.kp * (setpoint - measurement) && candidate == s.integral + g.ki * (setpoint - measurement) * dt
    requires d == DTerm(g, onMeasurement, s, setpoint - measurement, measurement, dt)
    requires Le(s.outMin, Fin(p + candidate + d)) && Le(Fin(p + candidate + d), s.outMax)
    ensures var t := Stepped(g, onMeasurement, s, setpoint, measurement, dt);
            t.integral == candidate && t.lastOutput == p + candidate + d
  {
    hide Beta, Derivative, DTerm, Gains.Divides;
  }

  lemma {:induction false} ErrorsIntegrate(g: Gains, onMeasurement: bool, s: State, inputs: seq<Input>, dt: real)
    requires s.Ok() && Finite(s) && dt > 0.0 && g.Divides(dt) && AllFree(g, onMeasurement, s, inputs, dt)
    ensures Fed(g, onMeasurement, s, inputs, dt).integral == s.integral + Integrated(g, dt, ErrorSum(inputs))
  {
    hide Stepped, DTerm, Free, Gains.Divides, Integrated;
    if inputs != [] {
      var last, init := inputs[|inputs| - 1], inputs[..|inputs| - 1];
      assert Free(g, onMeasurement, Fed(g, onMeasurement, s, inputs[..|init|], dt), inputs[|init|], dt);
      var error := last.setpoint - last.measurement;
      FreeStep(g, onMeasurement, Fed(g, onMeasurement, s, init, dt), last, dt, error, g.kp * error, g.ki * error * dt);
      assert forall k :: 0 <= k < |init| ==> init[..k] == inputs[..k] && init[k] == inputs[k];
      ErrorsIntegrate(g, onMeasurement, s, init, dt);
      OneMoreError(g, dt, ErrorSum(init), error);
    } else {
      NoErrors(g, dt);
    }
  }

  /** Within its bounds the controller puts out the sum of its three terms: the error, all errors so
      far integrated from the seed, and the derivative. */
  lemma PidLaw(g: Gains, onMeasurement: bool, s: State, inputs: seq<Input>, dt: real, error: real)
    requires s.Ok() && Finite(s) && dt > 0.0 && g.Divides(dt) && inputs != [] && AllFree(g, onMeasurement, s, inputs, dt)
    requires var last := inputs[|inputs| - 1];
             error == last.setpoint - last.measurement
    ensures var last, init := inputs[|inputs| - 1], inputs[..|inputs| - 1];
            var before, after := Fed(g, onMeasurement, s, init, dt), Fed(g, onMeasurement, s, inputs, dt);
            && after.integral == s.integral + Integrated(g, dt, ErrorSum(inputs))
            && after.lastOutput == g.kp * error + after.integral + DTerm(g, onMeasurement, before, error, last.measurement, dt)
  {
    hide Stepped, DTerm, Free, Gains.Divides, ErrorSum, Integrated;
    var k := |inputs| - 1;
    assert Free(g, onMeasurement, Fed(g, onMeasurement, s, inputs[..k], dt), inputs[k], dt);
    FreeStep(g, onMeasurement, Fed(g, onMeasurement, s, inputs[..k], dt), inputs[k], dt, error, g.kp * error, g.ki * error * dt);
    ErrorsIntegrate(g, onMeasurement, s, inputs, dt);
  }

  lemma OneMoreError(g: Gains, dt: real, errors: real, error: real)
    ensures Integrated(g, dt, errors) + g.ki * error * dt == Integrated(g, dt, errors + error)
  {}

  lemma NoErrors(g: Gains, dt: real)
    ensures Integrated(g, dt, 0.0) == 0.0
  {}

  /** Without an integral part nothing moves the integral, saturated or not. */
  lemma NoIntegralPart(g: Gains, onMeasurement: bool, s: State, setpoint: real, measurement: real, dt: real)
    requires s.Ok() && Finite(s) && dt > 0.0 && g.Divides(dt) && g.ki == 0.0
    ensures Stepped(g, onMeasurement, s, setpoint, measurement, dt).integral == s.integral
    ensures forall applied, requested :: Tracked(g, s, applied, requested, dt).integral == s.integral
  {
    hide Beta, Derivative, DTerm, Gains.Divides;
  }

  /** How far the differentiated quantity has moved since the last step. */
  function Moved(onMeasurement: bool, s: State, error: real, measurement: real): real
    requires s.Ok() && s.initialized
  {
    if onMeasurement then s.prevMeas.value - measurement else error - s.prevError.value
  }

  /** The derivative term follows kd times the rate of change through a first-order filter with the
      time constant kd / kp / n; without a filter it is that rate. */
  lemma DerivativeLaw(g: Gains, onMeasurement: bool, s: State, error: real, measurement: real, dt: real, filter: real)
    requires s.Ok() && s.initialized && dt > 0.0 && g.kd != 0.0
    requires g.nFilter.None? || (g.kp != 0.0 && g.nFilter.value != 0.0)
    requires filter == (if g.nFilter.None? then 0.0 else g.kd / (g.kp * g.nFilter.value)) && filter >= 0.0
    ensures g.Divides(dt)
    ensures var d := DTerm(g, onMeasurement, s, error, measurement, dt);
            filter * (d - s.deriv) + dt * d == g.kd * Moved(onMeasurement, s, error, measurement)
  {
    hide *;
    var rate, alpha := Moved(onMeasurement, s, error, measurement) / dt, dt / (filter + dt);
    RateTimes(g.kd, Moved(onMeasurement, s, error, measurement), rate, dt);
    Fraction(dt, filter, alpha);
    DerivativeIs(g, onMeasurement, s, error, measurement, dt, filter, rate, alpha);
    if g.nFilter.Some? { Filters(alpha, dt, filter, g.kd * rate, s.deriv); }
  }

  lemma DerivativeIs(
    g: Gains, onMeasurement: bool, s: State, error: real, measurement: real, dt: real, filter: real, rate: real, alpha: real)
    requires s.Ok() && s.initialized && dt > 0.0 && g.kd != 0.0
    requires g.nFilter.None? || (g.kp != 0.0 && g.nFilter.value != 0.0 && filter == g.kd / (g.kp * g.nFilter.value))
    requires filter >= 0.0 && rate == Moved(onMeasurement, s, error, measurement) / dt
    requires alpha == dt / (filter + dt) && 0.0 <= alpha <= 1.0
    ensures g.Divides(dt)
    ensures DTerm(g, onMeasurement, s, error, measurement, dt) ==
            if g.nFilter.None? then g.kd * rate else s.deriv + alpha * (g.kd * rate - s.deriv)
  {}

  /** From one sample to the next the derivative term follows kd times the movement between the two,
      through the same filter. */
  lemma DerivativeFollows(g: Gains, onMeasurement: bool, s: State, a: Input, b: Input, dt: real, filter: real)
    requires s.Ok() && Finite(s) && dt > 0.0 && g.kd != 0.0 && (!s.initialized ==> s.deriv == 0.0)
    requires g.nFilter.None? || (g.kp != 0.0 && g.nFilter.value != 0.0)
    requires filter == (if g.nFilter.None? then 0.0 else g.kd / (g.kp * g.nFilter.value)) && filter >= 0.0
    ensures g.Divides(dt)
    ensures var t := Stepped(g, onMeasurement, s, a.setpoint, a.measurement, dt);
            var before := DTerm(g, onMeasurement, s, a.setpoint - a.measurement, a.measurement, dt);
            var after := DTerm(g, onMeasurement, t, b.setpoint - b.measurement, b.measurement, dt);
            filter * (after - before) + dt * after ==
            g.kd * if onMeasurement then a.measurement - b.measurement
                   else (b.setpoint - b.measurement) - (a.setpoint - a.measurement)
  {
    hide *;
    FilterDivides(g, dt, filter);
    StepRemembers(g, onMeasurement, s, a.setpoint, a.measurement, dt);
    var t := Stepped(g, onMeasurement, s, a.setpoint, a.measurement, dt);
    MovedBetween(onMeasurement, t, a, b);
    DerivativeLaw(g, onMeasurement, t, b.setpoint - b.measurement, b.measurement, dt, filter);
  }

  lemma FilterDivides(g: Gains, dt: real, filter: real)
    requires dt > 0.0 && (g.nFilter.None? || (g.kp != 0.0 && g.nFilter.value != 0.0))
    requires filter == (if g.nFilter.None? then 0.0 else g.kd / (g.kp * g.nFilter.value)) && filter >= 0.0
    ensures g.Divides(dt)
  {}

  lemma MovedBetween(onMeasurement: bool, s: State, a: Input, b: Input)
    requires s.Ok() && s.initialized
    requires s.prevMeas == Some(a.measurement) && s.prevError == Some(a.setpoint - a.measurement)
    ensures Moved(onMeasurement, s, b.setpoint - b.measurement, b.measurement) ==
            if onMeasurement then a.measurement - b.measurement
            else (b.setpoint - b.measurement) - (a.setpoint - a.measurement)
  {}

  lemma StepRemembers(g: Gains, onMeasurement: bool, s: State, setpoint: real, measurement: real, dt: real)
    requires s.Ok() && Finite(s) && dt > 0.0 && g.Divides(dt) && g.kd != 0.0 && (!s.initialized ==> s.deriv == 0.0)
    ensures var t := Stepped(g, onMeasurement, s, setpoint, measurement, dt);
            && t.Ok() && t.initialized && t.prevMeas == Some(measurement) && t.prevError == Some(setpoint - measurement)
            && t.deriv == DTerm(g, onMeasurement, s, setpoint - measurement, measurement, dt)
  {
    hide Gains.Divides, Beta, ClampOut;
  }

  lemma RateTimes(kd: real, moved: real, raw: real, dt: real)
    requires dt > 0.0 && raw == moved / dt
    ensures dt * (kd * raw) == kd * moved
  {
    assert raw * dt == moved;
    assert dt * (kd * raw) == kd * (raw * dt);
  }

  lemma Fraction(dt: real, filter: real, alpha: real)
    requires dt > 0.0 && filter >= 0.0 && alpha == dt / (filter + dt)
    ensures 0.0 <= alpha <= 1.0 && alpha * (filter + dt) == dt
  {
    QuotientPositive(dt, filter + dt);
    if alpha > 1.0 { Positive(alpha - 1.0, filter + dt); }
  }

  lemma Filters(alpha: real, dt: real, filter: real, target: real, before: real)
    requires alpha * (filter + dt) == dt
    ensures var d := before + alpha * (target - before);
            filter * (d - before) + dt * d == dt * target
  {
    var gap := target - before;
    assert (filter + dt) * (alpha * gap) == (alpha * (filter + dt)) * gap;
  }

  /** On the measurement no setpoint makes a derivative kick; under an unmoved setpoint it is all
      the same. */
  lemma NoSetpointKick(g: Gains, s: State, error: real, other: real, measurement: real, dt: real)
    requires s.Ok() && dt > 0.0 && g.Divides(dt)
    ensures DTerm(g, true, s, error, measurement, dt) == DTerm(g, true, s, other, measurement, dt)
    ensures s.initialized && error + measurement == s.prevError.value + s.prevMeas.value ==>
              DTerm(g, false, s, error, measurement, dt) == DTerm(g, true, s, error, measurement, dt)
  {}

  // --- what the feedback bounds ---------------------------------------------------------

  lemma BetaRange(g: Gains, dt: real)
    requires dt > 0.0
    ensures 0.0 <= Beta(g, dt) <= 1.0
    ensures Beta(g, dt) > 0.0 <==> TrackingTime(g) > 0.0
  {
    if TrackingTime(g) > 0.0 { QuotientPositive(dt, TrackingTime(g)); }
  }

  lemma QuotientNonneg(a: real, b: real)
    requires a >= 0.0 && b > 0.0
    ensures a / b >= 0.0
  {}

  lemma QuotientPositive(a: real, b: real)
    requires a > 0.0 && b > 0.0
    ensures a / b > 0.0
  {}

  /** Without derivative action there is feedback unless the integrator runs on a
      non-positive proportional gain and no tracking time is given. */
  lemma FeedbackCondition(g: Gains)
    requires g.kd == 0.0
    ensures TrackingTime(g) > 0.0 <==> (g.tt.Some? && g.tt.value > 0.0) || g.ki <= 0.0 || g.kp > 0.0
  {
    if g.ki > 0.0 {
      if g.kp > 0.0 { QuotientPositive(g.kp, g.ki); }
      else { assert (g.kp / g.ki) * g.ki == g.kp; }
    }
  }

  // --- the feedback in seconds --------------------------------------------------------------------

  /** The tracking time: the one given; with derivative action the geometric mean of the integral
      and the derivative time, where root is a square root; the integral time without; and one
      second without an integral part. */
  lemma TrackingTimeIs(g: Gains)
    ensures g.tt.Some? && g.tt.value > 0.0 ==> TrackingTime(g) == g.tt.value
    ensures (g.tt.None? || g.tt.value <= 0.0) && g.ki > 0.0 && g.kp > 0.0 && g.kd > 0.0
            && g.root * g.root == (g.kp / g.ki) * (g.kd / g.kp) ==>
              TrackingTime(g) == g.root && TrackingTime(g) * TrackingTime(g) * g.ki == g.kd
    ensures (g.tt.None? || g.tt.value <= 0.0) && g.ki > 0.0 && (g.kp <= 0.0 || g.kd <= 0.0) ==>
              TrackingTime(g) * g.ki == g.kp
    ensures (g.tt.None? || g.tt.value <= 0.0) && g.ki <= 0.0 ==> TrackingTime(g) == 1.0
  {
    if g.ki > 0.0 { assert (g.kp / g.ki) * g.ki == g.kp; }
    if g.ki > 0.0 && g.kp > 0.0 {
      DerivativeTime(g.kd, g.kp);
      if g.kd > 0.0 { MeanOfTimes(g.kp, g.ki, g.kd, g.kp / g.ki, g.kd / g.kp); }
    }
  }

  lemma DerivativeTime(kd: real, kp: real)
    requires kp > 0.0
    ensures (kd / kp > 0.0 <==> kd > 0.0) && (kd / kp) * kp == kd
  {
    var q := kd / kp;
    assert q * kp == kd;
    if kd > 0.0 { QuotientPositive(kd, kp); }
    if q > 0.0 { Positive(q, kp); }
  }

  lemma MeanOfTimes(kp: real, ki: real, kd: real, ti: real, td: real)
    requires ti * ki == kp && td * kp == kd
    ensures ti * td * ki == kd
  {
    assert ti * td * ki == td * (ti * ki);
  }

  /** What is fed back in one sample, in seconds: the share dt over the tracking time of the gap,
      all of it from one tracking time on, none without one. */
  lemma FeedbackInSeconds(g: Gains, dt: real, gap: real)
    requires dt > 0.0
    ensures 0.0 < TrackingTime(g) && dt <= TrackingTime(g) ==> TrackingTime(g) * (Beta(g, dt) * gap) == dt * gap
    ensures 0.0 < TrackingTime(g) <= dt ==> Beta(g, dt) * gap == gap
    ensures TrackingTime(g) <= 0.0 ==> Beta(g, dt) * gap == 0.0
  {
    hide TrackingTime;
    var tt := TrackingTime(g);
    if tt > 0.0 {
      ShareOf(dt, tt, gap);
      if dt <= tt { assert Beta(g, dt) == dt / tt; } else { assert Beta(g, dt) == 1.0; }
    }
  }

  lemma ShareOf(dt: real, tt: real, gap: real)
    requires dt > 0.0 && tt > 0.0
    ensures (dt / tt <= 1.0 <==> dt <= tt) && (dt == tt ==> dt / tt == 1.0)
    ensures tt * ((dt / tt) * gap) == dt * gap
  {
    var q := dt / tt;
    assert q * tt == dt;
    if q <= 1.0 { Nonneg(1.0 - q, tt); }
    if q > 1.0 { Positive(q - 1.0, tt); }
    if q < 1.0 { Positive(1.0 - q, tt); }
    assert tt * (q * gap) == (q * tt) * gap;
  }

  /** The integral after n inputs of a request that stands beside the integral, while something
      else is applied. */
  function TrackedFor(g: Gains, s: State, base: real, applied: real, dt: real, n: nat): State {
    if n == 0 then s
    else
      var before := TrackedFor(g, s, base, applied, dt, n - 1);
      Tracked(g, before, applied, base + before.integral, dt)
  }

  function Power(f: real, n: nat): real {
    if n == 0 then 1.0 else f * Power(f, n - 1)
  }

  lemma SampleClosesGap(g: Gains, s: State, base: real, applied: real, dt: real)
    requires g.ki != 0.0 && 0.0 < dt <= TrackingTime(g)
    ensures applied - (base + Tracked(g, s, applied, base + s.integral, dt).integral) ==
            (1.0 - dt / TrackingTime(g)) * (applied - (base + s.integral))
  {
    hide TrackingTime, Beta;
    var tt, gap := TrackingTime(g), applied - (base + s.integral);
    FeedbackInSeconds(g, dt, gap);
    ShareOf(dt, tt, gap);
    SameMultiple(tt, Beta(g, dt) * gap, (dt / tt) * gap);
    LeftOver(dt / tt, gap);
  }

  lemma SameMultiple(a: real, b: real, c: real)
    requires a != 0.0 && a * b == a * c
    ensures b == c
  {}

  lemma LeftOver(f: real, gap: real)
    ensures gap - f * gap == (1.0 - f) * gap
  {}

  /** Each sample closes the gap between what is requested and what is applied by the factor
      1 - dt / tracking time. */
  lemma {:induction false} TrackingClosesGap(g: Gains, s: State, base: real, applied: real, dt: real, n: nat)
    requires g.ki != 0.0 && 0.0 < dt <= TrackingTime(g)
    ensures applied - (base + TrackedFor(g, s, base, applied, dt, n).integral) ==
            Power(1.0 - dt / TrackingTime(g), n) * (applied - (base + s.integral))
  {
    hide TrackingTime, Tracked;
    if n > 0 {
      var before, f := TrackedFor(g, s, base, applied, dt, n - 1), 1.0 - dt / TrackingTime(g);
      TrackingClosesGap(g, s, base, applied, dt, n - 1);
      SampleClosesGap(g, before, base, applied, dt);
      Regrouped(f, Power(f, n - 1), applied - (base + s.integral));
    }
  }

  lemma Regrouped(a: real, b: real, c: real)
    ensures a * (b * c) == a * b * c
  {}

  /** A saturated controller under a constant error is at rest exactly where the excess of its
      demand over the bound is the integration of one tracking time, whatever the sample time; of
      one sample, if that is longer. */
  lemma RestsAtExcess(g: Gains, s: State, setpoint: real, measurement: real, dt: real, rate: real, u: real)
    requires g.kd == 0.0 && g.ki > 0.0 && s.Ok() && Finite(s) && dt > 0.0 && TrackingTime(g) > 0.0
    requires rate == g.ki * (setpoint - measurement)
    requires u == g.kp * (setpoint - measurement) + (s.integral + rate * dt) && ClampOut(s, u) != Fin(u)
    ensures Stepped(g, true, s, setpoint, measurement, dt).integral == s.integral <==>
            u - ClampOut(s, u).w == rate * Max(dt, TrackingTime(g))
  {
    hide *;
    OutIsFinite(s, u);
    var out, fed := ClampOut(s, u).w, Beta(g, dt) * (ClampOut(s, u).w - u);
    SaturatedStep(g, s, setpoint, measurement, dt, rate, u, fed);
    FeedbackInSeconds(g, dt, out - u);
    RestCases(rate, dt, TrackingTime(g), out - u, fed, s.integral, s.integral + rate * dt + fed);
  }

  lemma SaturatedStep(g: Gains, s: State, setpoint: real, measurement: real, dt: real, rate: real, u: real, fed: real)
    requires g.kd == 0.0 && g.ki > 0.0 && s.Ok() && Finite(s) && dt > 0.0 && rate == g.ki * (setpoint - measurement)
    requires u == g.kp * (setpoint - measurement) + (s.integral + rate * dt) && ClampOut(s, u).Fin?
    requires ClampOut(s, u) != Fin(u) && fed == Beta(g, dt) * (ClampOut(s, u).w - u)
    ensures Stepped(g, true, s, setpoint, measurement, dt).integral == s.integral + rate * dt + fed
  {
    hide Stepped, Beta, ClampOut;
    assert g.ki * (setpoint - measurement) * dt == rate * dt;
    SteppedIntegral(g, s, setpoint, measurement, dt, s.integral + rate * dt, u, fed);
  }

  lemma OutIsFinite(s: State, u: real)
    requires Finite(s)
    ensures ClampOut(s, u).Fin?
  {}

  lemma RestCases(rate: real, dt: real, tt: real, gap: real, fed: real, before: real, after: real)
    requires dt > 0.0 && tt > 0.0 && after == before + rate * dt + fed
    requires (dt <= tt ==> tt * fed == dt * gap) && (tt <= dt ==> fed == gap)
    ensures after == before <==> -gap == rate * Max(dt, tt)
  {
    if dt <= tt { RestAt(rate, dt, tt, gap, fed); }
  }

  lemma RestAt(rate: real, dt: real, tt: real, gap: real, fed: real)
    requires dt > 0.0 && tt > 0.0 && tt * fed == dt * gap
    ensures rate * dt + fed == 0.0 <==> -gap == rate * tt
  {
    if rate * dt + fed == 0.0 {
      assert dt * gap == tt * (-(rate * dt)) == dt * (-(rate * tt));
      SameMultiple(dt, gap, -(rate * tt));
    }
    if -gap == rate * tt {
      assert tt * fed == dt * (-(rate * tt)) == tt * (-(rate * dt));
      SameMultiple(tt, fed, -(rate * dt));
    }
  }

  function AbsBound(w: real, p: real, beta: real, x: real): real {
    w + p + (1.0 - beta) * x
  }

  /** One tracking and one step: with the output in [-w, w], the proportional part within p,
      and gap and integration bounding beta * x together, the bound is kept exactly. */
  lemma AntiWindup(
    i: real, moved: real, q: real, beta: real, out: real, w: real, p: real, x: real, bound: real, candidate: real, fed: real)
    requires 0.0 < beta <= 1.0 && x >= 0.0 && bound == AbsBound(w, p, beta, x)
    requires -bound <= i <= bound && -(beta * x) <= moved <= beta * x && candidate == i + moved
    requires -p <= q <= p && -w <= out <= w && fed == beta * (out - (q + candidate))
    ensures -bound <= candidate + fed <= bound
    ensures out == q + candidate ==> -bound <= candidate <= bound
  {
    var reach := bound + beta * x;
    BoundIsFixed(beta, w + p, x, bound, reach);
    Blend(beta, candidate, reach, out, q, w + p);
  }

  lemma BoundIsFixed(beta: real, s: real, x: real, bound: real, reach: real)
    requires 0.0 < beta <= 1.0 && x >= 0.0
    requires bound == s + (1.0 - beta) * x && reach == bound + beta * x
    ensures (1.0 - beta) * reach + beta * s == bound && bound >= s
  {
    assert reach == s + x;
    assert (1.0 - beta) * (s + x) == (1.0 - beta) * s + (1.0 - beta) * x;
    Nonneg(1.0 - beta, x);
  }

  /** Back-calculation is a weighted mean of the candidate and the saturated remainder. */
  lemma Blend(beta: real, c: real, reach: real, out: real, q: real, s: real)
    requires 0.0 < beta <= 1.0 && -reach <= c <= reach && -s <= out - q <= s
    ensures var r := c + beta * (out - (q + c));
            -((1.0 - beta) * reach + beta * s) <= r <= (1.0 - beta) * reach + beta * s
  {
    var z := out - q;
    assert beta * (out - (q + c)) == beta * z - beta * c;
    Nonneg(1.0 - beta, reach - c);
    Nonneg(1.0 - beta, reach + c);
    Nonneg(beta, s - z);
    Nonneg(beta, s + z);
  }

  lemma Nonneg(a: real, b: real)
    requires a >= 0.0 && b >= 0.0
    ensures a * b >= 0.0
  {}

  /** The same at the controller: whatever was applied, tracking and then stepping keeps the
      explicit bound on the integral. */
  lemma TrackThenStepBounded(
    g: Gains, s: State, applied: real, requested: real, setpoint: real, measurement: real, dt: real,
    w: real, e: real, gapMax: real, x: real, bound: real)
    requires g.kd == 0.0 && g.ki > 0.0 && g.kp >= 0.0 && TrackingTime(g) > 0.0 && dt > 0.0
    requires s.Ok() && Finite(s) && Within(s, w) && w >= 0.0
    requires -e <= setpoint - measurement <= e && -gapMax <= applied - requested <= gapMax
    requires Beta(g, dt) * x == Beta(g, dt) * gapMax + g.ki * e * dt && x >= 0.0
    requires bound == AbsBound(w, g.kp * e, Beta(g, dt), x) && -bound <= s.integral <= bound
    ensures -bound <= Stepped(g, true, Tracked(g, s, applied, requested, dt), setpoint, measurement, dt).integral <= bound
  {
    hide *;
    var error := setpoint - measurement;
    BetaRange(g, dt);
    MoveRange(g, Beta(g, dt), applied - requested, gapMax, error, e, dt, x);
    var moved := Beta(g, dt) * (applied - requested) + g.ki * error * dt;
    var candidate, out, fed := TrackedStep(g, s, applied, requested, setpoint, measurement, dt, w, moved);
    AntiWindup(s.integral, moved, g.kp * error, Beta(g, dt), out, w, g.kp * e, x, bound, candidate, fed);
  }

  lemma MoveRange(g: Gains, beta: real, gap: real, gapMax: real, error: real, e: real, dt: real, x: real)
    requires g.ki > 0.0 && g.kp >= 0.0 && dt > 0.0 && 0.0 <= beta
    requires -e <= error <= e && -gapMax <= gap <= gapMax && beta * x == beta * gapMax + g.ki * e * dt
    ensures -(beta * x) <= beta * gap + g.ki * error * dt <= beta * x
    ensures -(g.kp * e) <= g.kp * error <= g.kp * e
  {
    Scaled(g.kp, error, e);
    ScaledTwice(g.ki, dt, error, e);
    Scaled(beta, gap, gapMax);
  }

  lemma TrackedStep(
    g: Gains, s: State, applied: real, requested: real, setpoint: real, measurement: real, dt: real, w: real, moved: real)
    returns (candidate: real, out: real, fed: real)
    requires g.kd == 0.0 && g.ki != 0.0 && dt > 0.0
    requires s.Ok() && Finite(s) && Within(s, w) && w >= 0.0
    requires moved == Beta(g, dt) * (applied - requested) + g.ki * (setpoint - measurement) * dt
    ensures candidate == s.integral + moved && -w <= out <= w
    ensures fed == Beta(g, dt) * (out - (g.kp * (setpoint - measurement) + candidate))
    ensures Stepped(g, true, Tracked(g, s, applied, requested, dt), setpoint, measurement, dt).integral ==
            if out == g.kp * (setpoint - measurement) + candidate then candidate else candidate + fed
  {
    hide Stepped, Beta;
    var t := Tracked(g, s, applied, requested, dt);
    candidate := s.integral + moved;
    var u := g.kp * (setpoint - measurement) + candidate;
    out := ClampOut(t, u).w;
    fed := Beta(g, dt) * (out - u);
    SteppedIntegral(g, t, setpoint, measurement, dt, candidate, u, fed);
  }

  lemma ScaledTwice(a: real, b: real, v: real, vmax: real)
    requires a >= 0.0 && b >= 0.0 && -vmax <= v <= vmax
    ensures -(a * vmax * b) <= a * v * b <= a * vmax * b
  {
    Scaled(a, v, vmax);
    Scaled(b, a * v, a * vmax);
  }

  /** What one step leaves in the integrator, without derivative action. */
  lemma SteppedIntegral(
    g: Gains, s: State, setpoint: real, measurement: real, dt: real, candidate: real, u: real, fed: real)
    requires g.kd == 0.0 && g.ki != 0.0 && s.Ok() && Finite(s) && dt > 0.0
    requires candidate == s.integral + g.ki * (setpoint - measurement) * dt
    requires u == g.kp * (setpoint - measurement) + candidate
    requires fed == Beta(g, dt) * (ClampOut(s, u).w - u)
    ensures Stepped(g, true, s, setpoint, measurement, dt).integral ==
            if ClampOut(s, u).w == u then candidate else candidate + fed
    ensures Stepped(g, true, s, setpoint, measurement, dt).lastOutput == ClampOut(s, u).w
  {
    hide Beta, Derivative;
  }

  predicate Within(s: State, w: real) {
    Le(Fin(-w), s.outMin) && Le(s.outMin, Fin(w)) && Le(Fin(-w), s.outMax) && Le(s.outMax, Fin(w))
  }

  lemma Scaled(a: real, v: real, vmax: real)
    requires a >= 0.0 && -vmax <= v <= vmax
    ensures -(a * vmax) <= a * v <= a * vmax
  {
    Nonneg(a, vmax - v);
    Nonneg(a, vmax + v);
    assert a * (vmax - v) == a * vmax - a * v && a * (vmax + v) == a * vmax + a * v;
  }

  /** A saturated controller under constant error, n steps on. */
  function Saturated(g: Gains, error: real, dt: real, n: nat): (s: State)
    requires dt > 0.0 && g.kd == 0.0
    ensures s.Ok() && s.outMin == s.outMax == Fin(0.0)
  {
    if n == 0 then Fresh(Fin(0.0), Fin(0.0), 0.0)
    else Stepped(g, true, Saturated(g, error, dt, n - 1), error, 0.0, dt)
  }

  lemma {:induction false} WindsUp(g: Gains, error: real, dt: real, n: nat, step: real)
    requires g.kd == 0.0 && g.ki > 0.0 && dt > 0.0 && TrackingTime(g) <= 0.0 && step == g.ki * error * dt
    ensures Saturated(g, error, dt, n).integral == Times(n, step)
  {
    hide Stepped, TrackingTime;
    if n > 0 {
      WindsUp(g, error, dt, n - 1, step);
      StepWithoutFeedback(g, Saturated(g, error, dt, n - 1), error, dt);
    }
  }

  lemma StepWithoutFeedback(g: Gains, s: State, error: real, dt: real)
    requires g.kd == 0.0 && s.Ok() && Finite(s) && dt > 0.0 && TrackingTime(g) <= 0.0
    ensures Stepped(g, true, s, error, 0.0, dt).integral == s.integral + g.ki * error * dt
  {
    hide Derivative, TrackingTime;
  }

  lemma {:induction false} SaturatedBounded(g: Gains, error: real, dt: real, n: nat, x: real, bound: real)
    requires g.kd == 0.0 && g.ki > 0.0 && g.kp >= 0.0 && dt > 0.0 && error > 0.0 && TrackingTime(g) > 0.0
    requires Beta(g, dt) * x == g.ki * error * dt && x >= 0.0
    requires bound == AbsBound(0.0, g.kp * error, Beta(g, dt), x) && bound >= 0.0
    ensures -bound <= Saturated(g, error, dt, n).integral <= bound
  {
    hide Beta, TrackingTime, AbsBound, Stepped;
    if n > 0 {
      SaturatedBounded(g, error, dt, n - 1, x, bound);
      var s := Saturated(g, error, dt, n - 1);
      TrackNothing(g, s, dt);
      TrackThenStepBounded(g, s, 0.0, 0.0, error, 0.0, dt, 0.0, error, 0.0, x, bound);
    }
  }

  lemma TrackNothing(g: Gains, s: State, dt: real)
    ensures Tracked(g, s, 0.0, 0.0, dt) == s
  {}

  ghost predicate BoundedBy(g: Gains, error: real, dt: real, bound: real)
    requires dt > 0.0 && g.kd == 0.0
  {
    forall n: nat :: -bound <= Saturated(g, error, dt, n).integral <= bound
  }

  /** A saturated integrator stays bounded exactly if the tracking time is positive: gains
      with an integral part, no proportional part and no tracking time wind up for ever. */
  lemma BoundedIffFeedback(g: Gains, error: real, dt: real)
    requires g.kd == 0.0 && g.ki > 0.0 && g.kp >= 0.0 && dt > 0.0 && error > 0.0
    ensures (exists bound :: BoundedBy(g, error, dt, bound)) <==> TrackingTime(g) > 0.0
  {
    var step := g.ki * error * dt;
    Positive(g.ki, error);
    Positive(g.ki * error, dt);
    if TrackingTime(g) > 0.0 {
      BetaRange(g, dt);
      var x := step / Beta(g, dt);
      QuotientPositive(step, Beta(g, dt));
      assert Beta(g, dt) * x == step;
      var bound := AbsBound(0.0, g.kp * error, Beta(g, dt), x);
      Nonneg(g.kp, error);
      Nonneg(1.0 - Beta(g, dt), x);
      forall n: nat ensures -bound <= Saturated(g, error, dt, n).integral <= bound {
        SaturatedBounded(g, error, dt, n, x, bound);
      }
      assert BoundedBy(g, error, dt, bound);
    } else {
      forall bound ensures !BoundedBy(g, error, dt, bound) {
        var n := Beyond(bound, step);
        TimesIsProduct(n, step);
        WindsUp(g, error, dt, n, step);
      }
    }
  }

  lemma Positive(a: real, b: real)
    requires a > 0.0 && b > 0.0
    ensures a * b > 0.0
  {}

  lemma Beyond(bound: real, step: real) returns (n: nat)
    requires step > 0.0
    ensures n as real * step > bound
  {
    var q := bound / step;
    n := if q < 0.0 then 1 else q.Floor + 1;
    assert q * step == bound;
    assert n as real > q;
    Positive(n as real - q, step);
    assert (n as real - q) * step == n as real * step - bound;
  }
}
