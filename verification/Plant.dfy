/** The simulated unit and its connection point (src/pyems/sim/plant.py). The lag
    factor 1 - exp(-dt/tau) is an input between 0 and 1. */
module Plant {
  import opened Num

  datatype Unit = Unit(pMax: real, power: real, setpoint: real, ignores: bool, enabled: bool)

  /** What the unit heads for: its resource, its cap and its rating, and never below zero. */
  function Goal(u: Unit, available: real): real {
    if !u.enabled then 0.0
    else Max(0.0, Min(Min(available, if u.ignores then u.pMax else u.setpoint), u.pMax))
  }

  function Respond(u: Unit, available: real, tau: real, alpha: real): Unit {
    u.(power := if tau <= 0.0 then Goal(u, available) else u.power + (Goal(u, available) - u.power) * alpha)
  }

  /** The unit's power moves towards its goal and never past it, so what was between zero and the
      rating stays there. */
  lemma RespondApproaches(u: Unit, available: real, tau: real, alpha: real)
    requires 0.0 <= alpha <= 1.0
    ensures var p, goal := Respond(u, available, tau, alpha).power, Goal(u, available);
            && (if u.power <= goal then u.power <= p <= goal else goal <= p <= u.power)
            && (0.0 <= u.power <= u.pMax ==> 0.0 <= p <= u.pMax)
            && (p == u.power && tau > 0.0 && alpha > 0.0 ==> p == goal)
  {
    GoalInRating(u, available);
    hide Goal;
    var goal := Goal(u, available);
    var lagged := u.power + (goal - u.power) * alpha;
    Approached(u.power, goal, alpha, lagged);
    assert Respond(u, available, tau, alpha).power == if tau <= 0.0 then goal else lagged;
    hide Respond;
  }

  /** A production the unit can and may run at. */
  predicate Producible(u: Unit, available: real, p: real) {
    0.0 <= p <= available && p <= u.pMax && (u.ignores || p <= u.setpoint) && (u.enabled || p == 0.0)
  }

  /** The unit heads for the most it can produce and is let to, and for nothing if it can do nothing. */
  lemma GoalIsMost(u: Unit, available: real, p: real)
    ensures Producible(u, available, p) ==> p <= Goal(u, available) && Producible(u, available, Goal(u, available))
    ensures !Producible(u, available, 0.0) ==> Goal(u, available) == 0.0
  {}

  lemma GoalInRating(u: Unit, available: real)
    ensures u.pMax >= 0.0 ==> 0.0 <= Goal(u, available) <= u.pMax
  {}

  lemma Approached(x: real, goal: real, alpha: real, p: real)
    requires 0.0 <= alpha <= 1.0 && p == x + (goal - x) * alpha
    ensures if x <= goal then x <= p <= goal else goal <= p <= x
    ensures p == x && alpha > 0.0 ==> p == goal
  {
    Fraction(goal - x, alpha, p - x);
  }

  lemma Fraction(gap: real, alpha: real, part: real)
    requires 0.0 <= alpha <= 1.0 && part == gap * alpha
    ensures if gap >= 0.0 then 0.0 <= part <= gap else gap <= part <= 0.0
    ensures part == 0.0 && alpha > 0.0 ==> gap == 0.0
  {
    if gap >= 0.0 {
      Signs(gap, alpha);
      Signs(gap, 1.0 - alpha);
      assert gap * (1.0 - alpha) == gap - part;
    } else {
      Signs(-gap, alpha);
      Signs(-gap, 1.0 - alpha);
      assert (-gap) * alpha == -part && (-gap) * (1.0 - alpha) == -gap + part;
    }
  }

  lemma Signs(a: real, b: real)
    requires a >= 0.0 && b >= 0.0
    ensures a * b >= 0.0
    ensures a > 0.0 && b > 0.0 ==> a * b > 0.0
  {}

  datatype Snapshot = Snapshot(at: real, available: real, unitPower: real, setpoint: real, load: real, cp: real)

  class SimWorld {
    var unit: Unit
    const tau: real
    var lastT: Option<real>
    var snapshot: Option<Snapshot>

    constructor (pMax: real, tau: real)
      requires pMax > 0.0
      ensures unit == Unit(pMax, 0.0, pMax, false, true) && this.tau == tau && lastT == None && snapshot == None
    {
      unit := Unit(pMax, 0.0, pMax, false, true);
      this.tau := tau;
      lastT, snapshot := None, None;
    }

    method SetSetpoint(w: real)
      modifies this`unit
      ensures unit == old(unit).(setpoint := w)
    {
      unit := unit.(setpoint := w);
    }

    /** One tick without meter noise: the connection point sees load minus production. */
    method Tick(at: real, available: real, load: real, alpha: real) returns (snap: Snapshot)
      modifies this
      ensures unit == Respond(old(unit), available, tau, alpha)
      ensures snap == Snapshot(at, available, unit.power, unit.setpoint, load, load - unit.power)
      ensures snapshot == Some(snap) && lastT == Some(at)
    {
      lastT := Some(at);
      unit := Respond(unit, available, tau, alpha);
      snap := Snapshot(at, available, unit.power, unit.setpoint, load, load - unit.power);
      snapshot := Some(snap);
    }
  }
}
