/** Does the unit follow its applied setpoint? (src/pyems/controllers/setpoint_compliance.py) */
module Compliance {
  import opened Num
  import opened Channels

  datatype Tolerance = Tolerance(w: real, maxViolation: real) {
    predicate Accepted() {
      w >= 0.0 && maxViolation > 0.0
    }
  }

  datatype Reading = Reading(now: real, pUnit: real, setpoint: real)

  /** Above the applied setpoint by more than the tolerance. */
  predicate Over(k: Tolerance, x: Reading) {
    x.pUnit > x.setpoint + k.w
  }

  function Since(k: Tolerance, overSince: Option<real>, x: Reading): Option<real> {
    if !Over(k, x) then None else if overSince.None? then Some(x.now) else overSince
  }

  predicate Violating(k: Tolerance, overSince: Option<real>, now: real) {
    overSince.Some? && now - overSince.value >= k.maxViolation
  }

  /** The tolerances accepted are those under which no unit at or below its setpoint overshoots and no
      single execution is a violation. */
  lemma AcceptedIff(k: Tolerance)
    ensures k.Accepted() <==>
            && (forall x: Reading :: x.pUnit <= x.setpoint ==> !Over(k, x))
            && (forall x: Reading :: !Violating(k, Since(k, None, x), x.now))
  {
    var below, above := Reading(0.0, 0.0, 0.0), Reading(0.0, 1.0 + k.w, 0.0);
    assert Over(k, above);
    assert !k.Accepted() ==> Over(k, below) || Violating(k, Since(k, None, above), 0.0);
  }

  class SetpointComplianceMonitor {
    const k: Tolerance
    const unitChannel: string
    const setpointChannel: string
    var overSince: Option<real>
    var violating: bool

    constructor (k: Tolerance, unitChannel: string, setpointChannel: string)
      requires k.Accepted()
      ensures this.k == k && this.unitChannel == unitChannel && this.setpointChannel == setpointChannel
      ensures overSince == None && !violating
    {
      this.k, this.unitChannel, this.setpointChannel := k, unitChannel, setpointChannel;
      overSince, violating := None, false;
    }

    /** False stands for the error against an unknown or read-only status tag, which leaves
        the window updated and the flag not. */
    method Execute(state: SystemState, now: real) returns (ok: bool)
      requires state.HasReal(unitChannel) && state.HasReal(setpointChannel)
      modifies this, state
      ensures ok == Commandable(old(state.tags), SETPOINT_VIOLATION)
      ensures var x := Reading(now, old(state.Get(unitChannel)).w, old(state.Get(setpointChannel)).w);
              && overSince == Since(k, old(overSince), x)
              && violating == (if ok then Violating(k, overSince, now) else old(violating))
              && state.tags == Commanded(old(state.tags), SETPOINT_VIOLATION,
                                         Fin(if Violating(k, overSince, now) then 1.0 else 0.0))
    {
      var pUnit, pSetpoint := state.Get(unitChannel).w, state.Get(setpointChannel).w;
      if !(pUnit > pSetpoint + k.w) {
        overSince := None;
      } else if overSince.None? {
        overSince := Some(now);
      }
      var sustained := overSince.Some? && now - overSince.value >= k.maxViolation;
      ok := state.Set(SETPOINT_VIOLATION, Fin(if sustained then 1.0 else 0.0));
      if ok { violating := sustained; }
    }
  }

  // --- the window against its trace -----------------------------------------------------

  ghost predicate InTime(xs: seq<Reading>) {
    forall i, j :: 0 <= i < j < |xs| ==> xs[i].now <= xs[j].now
  }

  function SinceAfter(k: Tolerance, xs: seq<Reading>): Option<real> {
    if xs == [] then None else Since(k, SinceAfter(k, xs[..|xs| - 1]), xs[|xs| - 1])
  }

  /** Every execution from i on found the unit above its setpoint by more than the tolerance. */
  ghost predicate OverFrom(k: Tolerance, xs: seq<Reading>, i: nat) {
    i < |xs| && forall j :: i <= j < |xs| ==> xs[j].pUnit - xs[j].setpoint > k.w
  }

  lemma {:induction false} OverSinceStart(k: Tolerance, xs: seq<Reading>) returns (start: nat)
    ensures start <= |xs|
    ensures SinceAfter(k, xs) == if start < |xs| then Some(xs[start].now) else None
    ensures forall i: nat :: OverFrom(k, xs, i) <==> start <= i < |xs|
  {
    start := 0;
    if xs != [] {
      var init, last := xs[..|xs| - 1], xs[|xs| - 1];
      var before := OverSinceStart(k, init);
      start := if Over(k, last) then before else |xs|;
      forall i: nat ensures OverFrom(k, xs, i) <==> start <= i < |xs| {
        assert i < |init| && last.pUnit - last.setpoint > k.w ==> (OverFrom(k, xs, i) <==> OverFrom(k, init, i));
      }
    }
  }

  /** A violation is raised exactly if every execution since one at least the window ago overshot. */
  lemma ViolationIffOvershootLasted(k: Tolerance, xs: seq<Reading>)
    requires k.Accepted() && InTime(xs) && xs != []
    ensures var now := xs[|xs| - 1].now;
            Violating(k, SinceAfter(k, xs), now) <==>
            exists i: nat :: OverFrom(k, xs, i) && now - xs[i].now >= k.maxViolation
  {
    var start := OverSinceStart(k, xs);
    if start < |xs| { assert OverFrom(k, xs, start); }
  }
}
