/** Whole-run guarantees of one arbiter: envelope, gradient, convergence, and the plain
    ramp limiter it refines (src/pyems/allocation/allocator.py, src/pyems/control/ramp_rate.py). */
module Setpoints {
  import opened Num
  import opened Requests
  import opened Arbitration

  ghost predicate Sane(cfg: Config, cycle: real) {
    cfg.pMin <= cfg.pMax && cfg.rampUp >= 0.0 && cfg.rampDown >= 0.0 && cycle >= 0.0
  }

  function UpStep(cfg: Config, cycle: real): real { cfg.rampUp * cycle }

  function DownStep(cfg: Config, cycle: real): real { cfg.rampDown * cycle }

  // --- the ramp limiter ---------------------------------------------------------

  datatype RampLimits = RampLimits(rateUp: real, rateDown: real)

  class RampRateLimiter {
    const limits: RampLimits
    var value: real

    constructor (limits: RampLimits, initial: real)
      ensures this.limits == limits && value == initial
    {
      this.limits, value := limits, initial;
    }

    /** False stands for the ValueError on dt <= 0. */
    method Step(target: real, dt: real) returns (ok: bool)
      modifies this
      ensures ok == (dt > 0.0)
      ensures value == if ok then Slew(limits, old(value), target, dt) else old(value)
    {
      if dt <= 0.0 { return false; }
      var lo := value - limits.rateDown * dt;
      var hi := value + limits.rateUp * dt;
      value := Min(Max(target, lo), hi);
      return true;
    }
  }

  function Slew(limits: RampLimits, value: real, target: real, dt: real): real {
    Min(Max(target, value - limits.rateDown * dt), value + limits.rateUp * dt)
  }

  function Slews(limits: RampLimits, value: real, targets: seq<real>, dt: real): seq<real>
    decreases |targets|
  {
    if targets == [] then []
    else var v := Slew(limits, value, targets[0], dt); [v] + Slews(limits, v, targets[1..], dt)
  }

  method ApplyRampLimit(targets: seq<real>, limits: RampLimits, dt: real, initial: real) returns (values: seq<real>)
    requires dt > 0.0
    ensures values == Slews(limits, initial, targets, dt)
  {
    var limiter := new RampRateLimiter(limits, initial);
    values := [];
    for i := 0 to |targets|
      invariant limiter.limits == limits
      invariant values + Slews(limits, limiter.value, targets[i..], dt) == Slews(limits, initial, targets, dt)
    {
      ghost var before := limiter.value;
      var _ := limiter.Step(targets[i], dt);
      values := values + [limiter.value];
      assert targets[i..][1..] == targets[i + 1..];
      assert Slews(limits, before, targets[i..], dt)
          == [limiter.value] + Slews(limits, limiter.value, targets[i + 1..], dt);
    }
  }

  /** The arbiter's own ramp over a sequence of targets, none of them forced. */
  function Follow(cfg: Config, cycle: real, x: real, targets: seq<real>): seq<real>
    decreases |targets|
  {
    if targets == [] then []
    else var v := Move(cfg, cycle, Some(x), targets[0], false); [v] + Follow(cfg, cycle, v, targets[1..])
  }

  /** Deadband and ramp as they look from outside: stay, arrive, or take one full step. */
  function Glide(deadband: real, up: real, down: real, x: real, target: real): real {
    if Abs(target - x) < deadband then x
    else if target >= x then Min(target, x + up)
    else Max(target, x - down)
  }

  lemma MoveIsGlide(cfg: Config, cycle: real, x: real, target: real)
    requires Sane(cfg, cycle)
    ensures UpStep(cfg, cycle) >= 0.0 && DownStep(cfg, cycle) >= 0.0
    ensures Move(cfg, cycle, Some(x), target, false) ==
            Glide(cfg.deadband, UpStep(cfg, cycle), DownStep(cfg, cycle), x, target)
  {
    Product(cfg.rampUp, cycle);
    Product(cfg.rampDown, cycle);
  }

  lemma Product(a: real, b: real)
    requires a >= 0.0 && b >= 0.0
    ensures a * b >= 0.0
  {}

  lemma MoveIsSlew(cfg: Config, cycle: real, x: real, target: real)
    requires Sane(cfg, cycle) && cfg.deadband <= 0.0
    ensures Move(cfg, cycle, Some(x), target, false) == Slew(RampLimits(cfg.rampUp, cfg.rampDown), x, target, cycle)
  {
    MoveIsGlide(cfg, cycle, x, target);
    GlideIsSlew(cfg.deadband, UpStep(cfg, cycle), DownStep(cfg, cycle), x, target);
  }

  lemma GlideIsSlew(deadband: real, up: real, down: real, x: real, target: real)
    requires deadband <= 0.0 && up >= 0.0 && down >= 0.0
    ensures Glide(deadband, up, down, x, target) == Min(Max(target, x - down), x + up)
  {}

  /** Without a deadband the arbiter is the ramp limiter, over every run of targets. */
  lemma {:induction false} NoDeadbandIsSlew(cfg: Config, cycle: real, x: real, targets: seq<real>)
    requires Sane(cfg, cycle) && cfg.deadband <= 0.0
    ensures Follow(cfg, cycle, x, targets) == Slews(RampLimits(cfg.rampUp, cfg.rampDown), x, targets, cycle)
    decreases |targets|
  {
    if targets != [] {
      var v := Move(cfg, cycle, Some(x), targets[0], false);
      MoveIsSlew(cfg, cycle, x, targets[0]);
      NoDeadbandIsSlew(cfg, cycle, v, targets[1..]);
    }
  }

  // --- envelope and gradient over whole runs -------------------------------------

  /** The retained setpoint after resolving each round of requests in turn, from `last`. */
  function LastAfter(cfg: Config, cycle: real, last: Option<real>, rounds: seq<seq<Request>>): Option<real> {
    if rounds == [] then last
    else
      var before := LastAfter(cfg, cycle, last, rounds[..|rounds| - 1]);
      Some(Resolved(cfg, cycle, rounds[|rounds| - 1], before))
  }

  lemma GoalInside(cfg: Config, ranked: seq<Request>, last: Option<real>)
    requires cfg.pMin <= cfg.pMax
    ensures Inside(Window(Envelope(cfg), ranked), GoalOf(cfg, ranked, last).target)
    ensures Inside(Envelope(cfg), GoalOf(cfg, ranked, last).target)
  {
    WindowNonEmpty(Envelope(cfg), ranked);
  }

  // --- where the goal lies ------------------------------------------------------------------------

  predicate Closer(t: Ext, x: real, y: real) {
    match t
    case Fin(w) => Abs(x - w) <= Abs(y - w)
    case PosInf => x >= y
    case NegInf => x <= y
  }

  /** x is the point of the range next to t. */
  ghost predicate Nearest(g: Span, t: Ext, x: real) {
    Inside(g, x) && forall y :: Inside(g, y) ==> Closer(t, x, y)
  }

  lemma LandsNearest(g: Span, t: Ext)
    requires g.lo <= g.hi
    ensures Nearest(g, t, Land(t, g)) && (Fin(Land(t, g)) == t <==> t.Fin? && Inside(g, t.w))
  {}

  lemma {:induction false} FirstTargetOf(a: seq<Request>, b: seq<Request>)
    ensures FirstTarget(a + b) == if FirstTarget(a).Some? then FirstTarget(a) else FirstTarget(b)
  {
    if a == [] {
      assert a + b == b;
    } else {
      assert (a + b)[1..] == a[1..] + b;
      FirstTargetOf(a[1..], b);
    }
  }

  /** The accepted ranks before i state no target. */
  ghost predicate Undecided(env: Span, s: seq<Request>, i: nat) {
    i <= |s| && forall j :: 0 <= j < i && Accepts(env, s, j) ==> s[j].target.None?
  }

  lemma {:induction false} DecidedBy(env: Span, s: seq<Request>, i: nat)
    requires Undecided(env, s, i)
    requires i < |s| ==> Accepts(env, s, i) && s[i].target.Some?
    ensures FirstTarget(Honored(env, s)) == if i < |s| then Some(s[i]) else None
  {
    if s != [] {
      var init, k := s[..|s| - 1], |s| - 1;
      forall j | 0 <= j < k ensures Accepts(env, s, j) == Accepts(env, init, j) { assert init[..j] == s[..j]; }
      DecidedBy(env, init, if i < k then i else k);
      FirstTargetOf(Honored(env, init), [s[k]]);
      assert [s[k]][1..] == [];
      hide Fits, Window;
    }
  }

  /** The best accepted rank that states a target decides: the goal is the point of the intersected
      range next to that target, and the target itself exactly if the envelope and every honored
      range contain it. */
  lemma TargetDecidesGoal(cfg: Config, ranked: seq<Request>, last: Option<real>, i: nat)
    requires cfg.pMin <= cfg.pMax && i < |ranked| && Undecided(Envelope(cfg), ranked, i)
    requires Accepts(Envelope(cfg), ranked, i) && ranked[i].target.Some?
    ensures var goal, t := GoalOf(cfg, ranked, last), ranked[i].target.value;
            && Nearest(Window(Envelope(cfg), ranked), t, goal.target)
            && (Fin(goal.target) == t <==>
                t.Fin? && cfg.pMin <= t.w <= cfg.pMax
                && forall k :: 0 <= k < |ranked| && Accepts(Envelope(cfg), ranked, k) ==> ranked[k].Covers(t.w))
            && goal.owner == ranked[i].requester && (goal.forced <==> ranked[i].priority == 0)
  {
    var env, t := Envelope(cfg), ranked[i].target.value;
    hide Window, Honored, Accepts, Land, Nearest;
    DecidedBy(env, ranked, i);
    WindowNonEmpty(env, ranked);
    LandsNearest(Window(env, ranked), t);
    if t.Fin? { WindowIsMeet(env, ranked, t.w); }
  }

  /** With claims but no target among the honored, the goal is the point of the intersected range
      next to the last setpoint. */
  lemma LastSetpointHeld(cfg: Config, ranked: seq<Request>, last: real)
    requires cfg.pMin <= cfg.pMax && ranked != [] && Undecided(Envelope(cfg), ranked, |ranked|)
    ensures var goal := GoalOf(cfg, ranked, Some(last));
            && Nearest(Window(Envelope(cfg), ranked), Fin(last), goal.target)
            && goal.owner == HOLD && !goal.forced
  {
    hide Window, Honored, Accepts, Land, Nearest;
    DecidedBy(Envelope(cfg), ranked, |ranked|);
    WindowNonEmpty(Envelope(cfg), ranked);
    LandsNearest(Window(Envelope(cfg), ranked), Fin(last));
  }

  /** Without claims, and on the first cycle without a target, it is the point next to the
      default; without claims the default itself exactly if the envelope contains it. */
  lemma DefaultLands(cfg: Config, ranked: seq<Request>, last: Option<real>)
    requires cfg.pMin <= cfg.pMax && Undecided(Envelope(cfg), ranked, |ranked|) && (ranked == [] || last.None?)
    ensures var goal := GoalOf(cfg, ranked, last);
            && Nearest(Window(Envelope(cfg), ranked), Fin(cfg.defaultW), goal.target)
            && goal.owner == DEFAULT && !goal.forced
            && (ranked == [] ==> (goal.target == cfg.defaultW <==> cfg.pMin <= cfg.defaultW <= cfg.pMax))
  {
    hide Honored, Accepts, Land, Nearest;
    DecidedBy(Envelope(cfg), ranked, |ranked|);
    WindowNonEmpty(Envelope(cfg), ranked);
    LandsNearest(Window(Envelope(cfg), ranked), Fin(cfg.defaultW));
  }

  /** No run of requests whatever takes the setpoint out of the device envelope. */
  lemma {:induction false} EnvelopeAlways(cfg: Config, cycle: real, rounds: seq<seq<Request>>)
    requires Sane(cfg, cycle)
    ensures var last := LastAfter(cfg, cycle, None, rounds);
            if rounds == [] then last.None? else last.Some? && Inside(Envelope(cfg), last.value)
  {
    if rounds != [] {
      var init := rounds[..|rounds| - 1];
      EnvelopeAlways(cfg, cycle, init);
      ResolvedInside(cfg, cycle, rounds[|rounds| - 1], LastAfter(cfg, cycle, None, init));
    }
  }

  lemma ResolvedInside(cfg: Config, cycle: real, requests: seq<Request>, last: Option<real>)
    requires Sane(cfg, cycle) && (last.Some? ==> Inside(Envelope(cfg), last.value))
    ensures Inside(Envelope(cfg), Resolved(cfg, cycle, requests, last))
  {
    var goal := GoalOf(cfg, Sort(requests), last);
    GoalInside(cfg, Sort(requests), last);
    if last.Some? { MoveIsGlide(cfg, cycle, last.value, goal.target); }
  }

  /** The setpoint may leave the intersected range; exactly when it does not: a forced value, a
      deadband held at a point inside, or a ramp step that reaches the range. */
  lemma InWindowIff(cfg: Config, cycle: real, requests: seq<Request>, x: real, up: real, down: real)
    requires Sane(cfg, cycle) && up == UpStep(cfg, cycle) && down == DownStep(cfg, cycle)
    ensures var g := Window(Envelope(cfg), Sort(requests));
            var goal := GoalOf(cfg, Sort(requests), Some(x));
            Inside(g, Resolved(cfg, cycle, requests, Some(x))) <==>
              goal.forced || if Abs(goal.target - x) < cfg.deadband then Inside(g, x) else g.lo <= x + up && x - down <= g.hi
  {
    GoalInside(cfg, Sort(requests), Some(x));
    MoveIsGlide(cfg, cycle, x, GoalOf(cfg, Sort(requests), Some(x)).target);
    hide Window, GoalOf, Sort, UpStep, DownStep;
  }

  /** Under a new cap of 50, the setpoint stays at 52 for the deadband, and steps from 90 to 80
      for the ramp. */
  lemma LeavesWindow(deadband: real)
    requires 0.0 <= deadband <= 5.0
    ensures var cfg := Config("p", 0.0, 100.0, 0.0, 10.0, 10.0, deadband);
            var cap := Request("a", 1, NegInf, Fin(50.0), None, None);
            && Window(Envelope(cfg), Sort([cap])) == Span(0.0, 50.0)
            && (deadband > 2.0 ==> Resolved(cfg, 1.0, [cap], Some(52.0)) == 52.0)
            && Resolved(cfg, 1.0, [cap], Some(90.0)) == 80.0
  {
    var cap := Request("a", 1, NegInf, Fin(50.0), None, None);
    assert [cap][..0] == [] && [cap][1..] == [] && Sort([cap]) == [cap];
    var env := Span(0.0, 100.0);
    assert Window(env, []) == env && Window(env, [cap]) == Span(0.0, 50.0);
    assert FirstTarget(Honored(env, [cap])).None?;
  }

  ghost predicate Unforced(cfg: Config, cycle: real, last: Option<real>, rounds: seq<seq<Request>>) {
    forall i :: 0 <= i < |rounds| ==>
      !GoalOf(cfg, Sort(rounds[i]), LastAfter(cfg, cycle, last, rounds[..i])).forced
  }

  /** Over n cycles without a forced value the setpoint rises and falls by at most n ramp
      steps, and so does the value as the tag store clamps it again to any bounds. */
  lemma GradientAlways(
    cfg: Config, cycle: real, x: real, rounds: seq<seq<Request>>, m: real, M: real, up: real, down: real)
    requires Sane(cfg, cycle) && m <= M && Unforced(cfg, cycle, Some(x), rounds)
    requires up == UpStep(cfg, cycle) && down == DownStep(cfg, cycle)
    ensures var last := LastAfter(cfg, cycle, Some(x), rounds);
            && last.Some?
            && -Times(|rounds|, down) <= last.value - x <= Times(|rounds|, up)
            && -Times(|rounds|, down) <= Clamp(last.value, m, M) - Clamp(x, m, M) <= Times(|rounds|, up)
  {
    var trail := Trail(cfg, cycle, x, rounds);
    forall i | 0 <= i < |rounds| ensures -down <= trail[i + 1] - trail[i] <= up {
      UnforcedStep(cfg, cycle, x, rounds, i);
    }
    MoveIsGlide(cfg, cycle, x, x);
    ClampedDrift(trail, up, down, m, M);
  }

  /** The setpoint before the run and after each of its cycles. */
  ghost function Trail(cfg: Config, cycle: real, x: real, rounds: seq<seq<Request>>): (trail: seq<real>)
    ensures |trail| == |rounds| + 1 && trail[0] == x && trail[|rounds|] == LastOr(cfg, cycle, x, rounds)
    ensures forall i :: 0 <= i <= |rounds| ==> trail[i] == LastOr(cfg, cycle, x, rounds[..i])
  {
    assert rounds[..0] == [] && rounds[..|rounds|] == rounds;
    seq(|rounds| + 1, i requires 0 <= i <= |rounds| => LastOr(cfg, cycle, x, rounds[..i]))
  }

  lemma ClampedDrift(trail: seq<real>, up: real, down: real, m: real, M: real)
    requires trail != [] && m <= M && up >= 0.0 && down >= 0.0
    requires forall i :: 0 <= i < |trail| - 1 ==> -down <= trail[i + 1] - trail[i] <= up
    ensures var n := |trail| - 1;
            && -Times(n, down) <= trail[n] - trail[0] <= Times(n, up)
            && -Times(n, down) <= Clamp(trail[n], m, M) - Clamp(trail[0], m, M) <= Times(n, up)
  {
    var clamped := seq(|trail|, i requires 0 <= i < |trail| => Clamp(trail[i], m, M));
    forall i | 0 <= i < |trail| - 1 ensures -down <= clamped[i + 1] - clamped[i] <= up {
      ClampSteady(trail[i], trail[i + 1], m, M, up, down);
    }
    Drift(trail, up, down);
    Drift(clamped, up, down);
  }

  function LastOr(cfg: Config, cycle: real, x: real, rounds: seq<seq<Request>>): real
  {
    LastAfter(cfg, cycle, Some(x), rounds).value
  }

  lemma UnforcedStep(cfg: Config, cycle: real, x: real, rounds: seq<seq<Request>>, i: nat)
    requires Sane(cfg, cycle) && Unforced(cfg, cycle, Some(x), rounds) && i < |rounds|
    ensures -DownStep(cfg, cycle) <= LastOr(cfg, cycle, x, rounds[..i + 1]) - LastOr(cfg, cycle, x, rounds[..i])
                                  <= UpStep(cfg, cycle)
  {
    assert rounds[..i + 1][..i] == rounds[..i];
    var goal := GoalOf(cfg, Sort(rounds[i]), LastAfter(cfg, cycle, Some(x), rounds[..i]));
    MoveIsGlide(cfg, cycle, LastOr(cfg, cycle, x, rounds[..i]), goal.target);
  }

  lemma {:induction false} Drift(trail: seq<real>, up: real, down: real)
    requires trail != []
    requires forall i :: 0 <= i < |trail| - 1 ==> -down <= trail[i + 1] - trail[i] <= up
    ensures var n := |trail| - 1;
            -Times(n, down) <= trail[n] - trail[0] <= Times(n, up)
  {
    if |trail| > 1 {
      Drift(trail[..|trail| - 1], up, down);
    }
  }

  /** Clamping to fixed bounds never makes a step longer. */
  lemma ClampSteady(y: real, z: real, m: real, M: real, up: real, down: real)
    requires m <= M && -down <= z - y <= up && up >= 0.0 && down >= 0.0
    ensures -down <= Clamp(z, m, M) - Clamp(y, m, M) <= up
  {}

  // --- convergence ------------------------------------------------------------------

  /** n cycles towards one target. */
  function Chase(deadband: real, up: real, down: real, x: real, target: real, n: nat): real
    decreases n
  {
    if n == 0 then x
    else Chase(deadband, up, down, Glide(deadband, up, down, x, target), target, n - 1)
  }

  function StepTowards(up: real, down: real, x: real, target: real): real {
    if target >= x then up else down
  }

  predicate Between(x: real, y: real, target: real) {
    if target >= x then x <= y <= target else target <= y <= x
  }

  /** Settled for good: exactly at the target, or closer than the deadband. */
  predicate AtRest(deadband: real, up: real, down: real, y: real, target: real) {
    && Glide(deadband, up, down, y, target) == y
    && (y == target || Abs(target - y) < deadband)
  }

  /** Monotone, never past the target, and at rest as soon as n steps cover the gap. */
  lemma {:induction false} ChaseConverges(deadband: real, up: real, down: real, x: real, target: real, n: nat)
    requires up > 0.0 && down > 0.0
    ensures var y := Chase(deadband, up, down, x, target, n);
            && Between(x, y, target)
            && Between(y, Glide(deadband, up, down, y, target), target)
            && (Abs(target - x) <= n as real * StepTowards(up, down, x, target) ==>
                  AtRest(deadband, up, down, y, target))
    decreases n
  {
    if n > 0 {
      var y := Glide(deadband, up, down, x, target);
      ChaseConverges(deadband, up, down, y, target, n - 1);
      if y == x {
        ChaseStays(deadband, up, down, x, target, n);
      } else {
        OneMore(n, StepTowards(up, down, x, target));
        if y == target { Product((n - 1) as real, StepTowards(up, down, y, target)); }
      }
    }
  }

  lemma {:induction false} ChaseStays(deadband: real, up: real, down: real, x: real, target: real, n: nat)
    requires Glide(deadband, up, down, x, target) == x
    ensures Chase(deadband, up, down, x, target, n) == x
  {
    if n > 0 { ChaseStays(deadband, up, down, x, target, n - 1); }
  }

  lemma {:induction false} ChaseLast(deadband: real, up: real, down: real, x: real, target: real, n: nat)
    requires n > 0
    ensures Chase(deadband, up, down, x, target, n) ==
            Glide(deadband, up, down, Chase(deadband, up, down, x, target, n - 1), target)
    decreases n
  {
    if n > 1 { ChaseLast(deadband, up, down, Glide(deadband, up, down, x, target), target, n - 1); }
  }

  /** The least number of steps that covers the gap. */
  function CeilDiv(gap: real, step: real): int
    requires step > 0.0
  {
    -((-(gap / step)).Floor)
  }

  lemma CeilDivCovers(gap: real, step: real, n: int)
    requires step > 0.0
    ensures n >= CeilDiv(gap, step) <==> gap <= n as real * step
  {
    var q := gap / step;
    assert q * step == gap;
    assert n >= CeilDiv(gap, step) <==> n as real >= q;
    var d := n as real - q;
    assert d * step == n as real * step - gap;
    if d >= 0.0 { Product(d, step); } else { assert -d > 0.0 && -d * step > 0.0; }
  }

  lemma RestWithin(deadband: real, up: real, down: real, x: real, target: real, n: nat)
    requires up > 0.0 && down > 0.0
    ensures var y := Chase(deadband, up, down, x, target, n);
            && Between(x, y, target)
            && Between(y, Glide(deadband, up, down, y, target), target)
            && (n >= CeilDiv(Abs(target - x), StepTowards(up, down, x, target)) ==>
                  AtRest(deadband, up, down, y, target))
  {
    ChaseConverges(deadband, up, down, x, target, n);
    CeilDivCovers(Abs(target - x), StepTowards(up, down, x, target), n);
  }

  /** The target an unchanging list of requests sets, seen from setpoint x. */
  function TargetFrom(cfg: Config, requests: seq<Request>, x: real): real {
    GoalOf(cfg, Sort(requests), Some(x)).target
  }

  /** Moving towards the target does not move the target, not even when it is "hold last". */
  lemma TargetStable(cfg: Config, requests: seq<Request>, x: real, y: real)
    requires cfg.pMin <= cfg.pMax && Between(x, y, TargetFrom(cfg, requests, x))
    ensures TargetFrom(cfg, requests, y) == TargetFrom(cfg, requests, x)
    ensures GoalOf(cfg, Sort(requests), Some(y)).forced == GoalOf(cfg, Sort(requests), Some(x)).forced
  {
    WindowNonEmpty(Envelope(cfg), Sort(requests));
  }

  lemma ResolvedIsGlide(cfg: Config, cycle: real, requests: seq<Request>, y: real)
    requires Sane(cfg, cycle) && !GoalOf(cfg, Sort(requests), Some(y)).forced
    ensures Resolved(cfg, cycle, requests, Some(y)) ==
            Glide(cfg.deadband, UpStep(cfg, cycle), DownStep(cfg, cycle), y, TargetFrom(cfg, requests, y))
  {
    MoveIsGlide(cfg, cycle, y, TargetFrom(cfg, requests, y));
  }

  lemma {:induction false} UnchangingIsChase(
    cfg: Config, cycle: real, requests: seq<Request>, x: real, up: real, down: real, n: nat)
    requires Sane(cfg, cycle) && !GoalOf(cfg, Sort(requests), Some(x)).forced
    requires up == UpStep(cfg, cycle) && down == DownStep(cfg, cycle) && up > 0.0 && down > 0.0
    ensures LastAfter(cfg, cycle, Some(x), seq(n, _ => requests)) ==
            Some(Chase(cfg.deadband, up, down, x, TargetFrom(cfg, requests, x), n))
  {
    if n > 0 {
      UnchangingIsChase(cfg, cycle, requests, x, up, down, n - 1);
      var target := TargetFrom(cfg, requests, x);
      var y := Chase(cfg.deadband, up, down, x, target, n - 1);
      assert seq(n, _ => requests)[..n - 1] == seq(n - 1, _ => requests);
      RestWithin(cfg.deadband, up, down, x, target, n - 1);
      TargetStable(cfg, requests, x, y);
      ChaseLast(cfg.deadband, up, down, x, target, n);
      ResolvedIsGlide(cfg, cycle, requests, y);
    }
  }

  /** Under unchanging requests the setpoint moves monotonically to rest, in as many cycles
      as ramp steps fit into the gap, and stays there. */
  lemma UnchangingConverges(
    cfg: Config, cycle: real, requests: seq<Request>, x: real, up: real, down: real, n: nat)
    requires Sane(cfg, cycle) && !GoalOf(cfg, Sort(requests), Some(x)).forced
    requires up == UpStep(cfg, cycle) && down == DownStep(cfg, cycle) && up > 0.0 && down > 0.0
    ensures var target := TargetFrom(cfg, requests, x);
            var now := LastAfter(cfg, cycle, Some(x), seq(n, _ => requests));
            var next := LastAfter(cfg, cycle, Some(x), seq(n + 1, _ => requests));
            && now.Some? && next.Some?
            && Between(x, now.value, target) && Between(now.value, next.value, target)
            && (n >= CeilDiv(Abs(target - x), StepTowards(up, down, x, target)) ==>
                  next == now && (now.value == target || Abs(target - now.value) < cfg.deadband))
  {
    var target := TargetFrom(cfg, requests, x);
    UnchangingIsChase(cfg, cycle, requests, x, up, down, n);
    UnchangingIsChase(cfg, cycle, requests, x, up, down, n + 1);
    RestWithin(cfg.deadband, up, down, x, target, n);
    ChaseLast(cfg.deadband, up, down, x, target, n + 1);
  }

  // --- a pin at the top of the ranking -----------------------------------------------

  predicate IsPin(r: Request, w: real) {
    r.min == Fin(w) && r.max == Fin(w) && r.target == Some(Fin(w))
  }

  /** Whoever is outranked by a pin cannot move it: the goal is the pinned value. */
  lemma PinDecides(cfg: Config, ranked: seq<Request>, w: real, last: Option<real>)
    requires Inside(Envelope(cfg), w) && ranked != [] && IsPin(ranked[0], w)
    ensures GoalOf(cfg, ranked, last) == Goal(w, ranked[0].requester, ranked[0].priority == 0)
  {
    PinNarrows(cfg, ranked, w);
  }

  lemma {:induction false} PinNarrows(cfg: Config, ranked: seq<Request>, w: real)
    requires Inside(Envelope(cfg), w) && ranked != [] && IsPin(ranked[0], w)
    ensures Window(Envelope(cfg), ranked) == Span(w, w)
    ensures Honored(Envelope(cfg), ranked) != [] && Honored(Envelope(cfg), ranked)[0] == ranked[0]
  {
    var init := ranked[..|ranked| - 1];
    if |ranked| > 1 {
      PinNarrows(cfg, init, w);
    } else {
      assert init == [];
    }
  }

  /** The best-ranked of the posted requests is first in the list. */
  lemma TopOfSort(requests: seq<Request>, top: Request)
    requires top in requests && forall r :: r in requests ==> r == top || Outranks(top, r)
    ensures Sort(requests) != [] && Sort(requests)[0] == top
  {
    var ranked := Sort(requests);
    SortCorrect(requests);
    MemberOfPermutation(requests, ranked, top);
    assert ranked != [] && ranked[0] in ranked;
    MemberOfPermutation(requests, ranked, ranked[0]);
    var i :| 0 <= i < |ranked| && ranked[i] == top;
    assert i > 0 ==> !Outranks(ranked[i], ranked[0]);
  }

  /** A disabled generation gate brings the unit to rest within the deadband of its floor,
      whatever the requests it outranks ask for, and however they change every cycle. */
  lemma PinnedConverges(
    cfg: Config, cycle: real, pin: Request, w: real, x: real, rounds: seq<seq<Request>>, up: real, down: real)
    requires Sane(cfg, cycle)
    requires up == UpStep(cfg, cycle) && down == DownStep(cfg, cycle) && up > 0.0 && down > 0.0
    requires Inside(Envelope(cfg), w) && IsPin(pin, w) && pin.priority > 0
    requires forall i :: 0 <= i < |rounds| ==> TopRanked(pin, rounds[i])
    ensures var last := LastAfter(cfg, cycle, Some(x), rounds);
            && last.Some? && Between(x, last.value, w)
            && (|rounds| >= CeilDiv(Abs(w - x), StepTowards(up, down, x, w)) ==>
                  AtRest(cfg.deadband, up, down, last.value, w))
  {
    PinnedIsChase(cfg, cycle, pin, w, x, rounds, up, down);
    RestWithin(cfg.deadband, up, down, x, w, |rounds|);
  }

  lemma {:induction false} PinnedIsChase(
    cfg: Config, cycle: real, pin: Request, w: real, x: real, rounds: seq<seq<Request>>, up: real, down: real)
    requires Sane(cfg, cycle) && up == UpStep(cfg, cycle) && down == DownStep(cfg, cycle)
    requires Inside(Envelope(cfg), w) && IsPin(pin, w) && pin.priority > 0
    requires forall i :: 0 <= i < |rounds| ==> TopRanked(pin, rounds[i])
    ensures LastAfter(cfg, cycle, Some(x), rounds) == Some(Chase(cfg.deadband, up, down, x, w, |rounds|))
  {
    if rounds != [] {
      var init, round := rounds[..|rounds| - 1], rounds[|rounds| - 1];
      PinnedIsChase(cfg, cycle, pin, w, x, init, up, down);
      var y := Chase(cfg.deadband, up, down, x, w, |init|);
      TopOfSort(round, pin);
      PinDecides(cfg, Sort(round), w, Some(y));
      MoveIsGlide(cfg, cycle, y, w);
      ChaseLast(cfg.deadband, up, down, x, w, |rounds|);
    }
  }

  ghost predicate TopRanked(top: Request, requests: seq<Request>) {
    top in requests && forall r :: r in requests ==> r == top || Outranks(top, r)
  }
}
