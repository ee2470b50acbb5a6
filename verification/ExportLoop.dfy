/** The export limit closed around the arbiter and the plant
    (src/pyems/controllers/grid_export_limit.py, src/pyems/allocation/allocator.py, src/pyems/sim/plant.py). */
module ExportLoop {
  import opened Num
  import opened Requests
  import opened Arbitration
  import opened Setpoints
  import opened Controllers
  import opened Plant

  predicate IsCap(r: Request, floor: real) {
    r.min == NegInf && r.max.Fin? && r.max.w >= floor
  }

  /** Among the requests stands this cap, and whatever outranks it is such a cap too. */
  ghost predicate CapStands(cfg: Config, requests: seq<Request>, r: Request) {
    && DistinctRequesters(requests)
    && r in requests && IsCap(r, cfg.pMin)
    && forall q :: q in requests && Outranks(q, r) ==> IsCap(q, cfg.pMin)
  }

  lemma {:induction false} CapsNarrow(env: Span, ranked: seq<Request>, i: nat)
    requires env.lo <= env.hi && i < |ranked|
    requires forall j :: 0 <= j <= i ==> IsCap(ranked[j], env.lo)
    ensures ranked[i].max.Fin? && Window(env, ranked).hi <= ranked[i].max.w
    ensures i == |ranked| - 1 ==> Window(env, ranked).lo == env.lo
  {
    var init := ranked[..|ranked| - 1];
    if i < |ranked| - 1 {
      CapsNarrow(env, init, i);
    } else {
      if i > 0 { CapsNarrow(env, init, i - 1); } else { assert init == []; }
      WindowNonEmpty(env, init);
      WindowEdges(env, init);
      CapWindowHigh(env, init);
    }
  }

  lemma {:induction false} CapWindowHigh(env: Span, s: seq<Request>)
    requires env.lo <= env.hi && forall j :: 0 <= j < |s| ==> IsCap(s[j], env.lo)
    ensures Window(env, s).lo == env.lo <= Window(env, s).hi
  {
    if s != [] { CapWindowHigh(env, s[..|s| - 1]); }
  }

  /** A standing cap bounds the target whatever lower-ranked requests ask for. */
  lemma CapBoundsTarget(cfg: Config, requests: seq<Request>, r: Request, last: Option<real>)
    requires cfg.pMin <= cfg.pMax && CapStands(cfg, requests, r)
    ensures GoalOf(cfg, Sort(requests), last).target <= r.max.w
  {
    var ranked := Sort(requests);
    SortCorrect(requests);
    DistinctPermutation(requests, ranked);
    SortedDistinctIsRanked(ranked);
    MemberOfPermutation(requests, ranked, r);
    var i :| 0 <= i < |ranked| && ranked[i] == r;
    forall j | 0 <= j <= i ensures IsCap(ranked[j], cfg.pMin) {
      MemberOfPermutation(requests, ranked, ranked[j]);
      assert j < i ==> Outranks(ranked[j], r);
    }
    CapsNarrow(Envelope(cfg), ranked, i);
    GoalInside(cfg, ranked, last);
  }

  /** All of them are caps as the export-limit and the headroom controller post them. */
  ghost predicate OnlyCaps(cfg: Config, requests: seq<Request>) {
    forall r :: r in requests ==> r.max.Fin? && r == CapClaim(r.requester, r.priority, r.max.w) && cfg.pMin <= r.max.w
  }

  /** Caps alone never raise a setpoint: the goal is the last setpoint if all of them allow it, and
      lies below it if not. */
  lemma CapsNeverRaise(cfg: Config, requests: seq<Request>, last: real)
    requires OnlyCaps(cfg, requests) && requests != [] && cfg.pMin <= last <= cfg.pMax
    ensures var goal := GoalOf(cfg, Sort(requests), Some(last));
            goal.target <= last && ((forall r :: r in requests ==> last <= r.max.w) ==> goal.target == last)
  {
    var ranked, env := Sort(requests), Envelope(cfg);
    SortCorrect(requests);
    assert multiset(ranked) != multiset([]);
    forall k | 0 <= k < |ranked| ensures ranked[k] in requests { MemberOfPermutation(requests, ranked, ranked[k]); }
    LastSetpointHeld(cfg, ranked, last);
    CapWindowHigh(env, ranked);
    var goal, window := GoalOf(cfg, ranked, Some(last)).target, Window(env, ranked);
    if last <= window.hi { assert Inside(window, last); }
    if forall r :: r in requests ==> last <= r.max.w {
      assert forall k :: 0 <= k < |ranked| ==> ranked[k].Covers(last);
      WindowIsMeet(env, ranked, last);
    }
    hide GoalOf, Window, Sort, Accepts, Honored;
  }

  /** One cycle under a standing cap: at or under the cap, or held within the deadband of
      it, or one full down-ramp step closer to it. */
  lemma CapStep(cfg: Config, cycle: real, requests: seq<Request>, r: Request, x: real, down: real)
    requires Sane(cfg, cycle) && CapStands(cfg, requests, r) && down == DownStep(cfg, cycle)
    ensures var next := Resolved(cfg, cycle, requests, Some(x));
            next <= r.max.w || next - r.max.w < cfg.deadband || next <= x - down
  {
    CapBoundsTarget(cfg, requests, r, Some(x));
    MoveIsGlide(cfg, cycle, x, GoalOf(cfg, Sort(requests), Some(x)).target);
  }

  // --- the loop ---------------------------------------------------------------------------

  /** What one cycle brings: the site load, the unit's resource, and every other claim. */
  datatype Weather = Weather(load: real, available: real, others: seq<Request>)

  datatype Loop = Loop(setpoint: real, unit: Unit)

  /** One channel's arbiter, its export-cap controller and the unit's lag. */
  datatype Site = Site(cfg: Config, cycle: real, name: string, priority: int, limit: real, tau: real, alpha: real) {
    ghost predicate Fit(down: real) {
      Sane(cfg, cycle) && cfg.pMin <= 0.0 && cfg.deadband >= 0.0 && down == DownStep(cfg, cycle) && down >= 0.0
    }
  }

  function ExportClaim(e: Site, s: Loop, load: real): Request {
    CapClaim(e.name, e.priority, ExportCap(s.unit.power, load - s.unit.power, e.limit))
  }

  /** Measure, cap, arbitrate, actuate. */
  function LoopStep(e: Site, s: Loop, w: Weather): Loop {
    var next := Resolved(e.cfg, e.cycle, [ExportClaim(e, s, w.load)] + w.others, Some(s.setpoint));
    Loop(next, Respond(s.unit.(setpoint := next), w.available, e.tau, e.alpha))
  }

  function LoopRun(e: Site, s: Loop, ws: seq<Weather>): Loop {
    if ws == [] then s else LoopStep(e, LoopRun(e, s, ws[..|ws| - 1]), ws[|ws| - 1])
  }

  /** The other claims come from other requesters, and only caps outrank the export cap. */
  ghost predicate Compatible(cfg: Config, name: string, priority: int, others: seq<Request>) {
    && DistinctRequesters(others)
    && (forall q :: q in others ==> q.requester != name)
    && forall q :: q in others && Outranks(q, CapClaim(name, priority, 0.0)) ==> IsCap(q, cfg.pMin)
  }

  lemma ExportCapStands(cfg: Config, name: string, priority: int, cap: real, others: seq<Request>)
    requires Compatible(cfg, name, priority, others) && cfg.pMin <= 0.0 <= cap
    ensures CapStands(cfg, [CapClaim(name, priority, cap)] + others, CapClaim(name, priority, cap))
  {
    var claim := CapClaim(name, priority, cap);
    var all := [claim] + others;
    assert all[0] == claim;
    forall i, j | 0 <= i < j < |all| ensures all[i].requester != all[j].requester {
      assert all[j] == others[j - 1] && all[j] in others;
      if i > 0 { assert all[i] == others[i - 1]; }
    }
    forall q | q in all && Outranks(q, claim) ensures IsCap(q, cfg.pMin) {
      assert q == claim || q in others;
      assert Outranks(q, CapClaim(name, priority, 0.0)) by { OutranksTotal(claim, claim); }
      OutranksTotal(claim, claim);
    }
  }

  /** The setpoint's excess over load plus limit: below the deadband, or at least one down-ramp
      step less than what the present setpoint exceeds them by. */
  lemma ExcessStep(e: Site, s: Loop, w: Weather, down: real)
    requires e.Fit(down) && Compatible(e.cfg, e.name, e.priority, w.others) && w.load + e.limit >= 0.0
    ensures var excess := LoopStep(e, s, w).setpoint - (w.load + e.limit);
            excess < e.cfg.deadband || excess <= Max(0.0, s.setpoint - (w.load + e.limit) - down)
  {
    var claim := ExportClaim(e, s, w.load);
    assert claim.max.w == w.load + e.limit;
    ExportCapStands(e.cfg, e.name, e.priority, w.load + e.limit, w.others);
    CapStep(e.cfg, e.cycle, [claim] + w.others, claim, s.setpoint, down);
  }

  /** On any run under a moving load: below the deadband, or no more than the last cycle's excess
      plus the load's drop since, less one down-ramp step. */
  lemma ExcessFollowsLoad(e: Site, s: Loop, ws: seq<Weather>, w: Weather, down: real)
    requires e.Fit(down) && Compatible(e.cfg, e.name, e.priority, w.others) && w.load + e.limit >= 0.0 && ws != []
    ensures var before := ws[|ws| - 1].load;
            var excess := LoopRun(e, s, ws + [w]).setpoint - (w.load + e.limit);
            || excess < e.cfg.deadband
            || excess <= Max(0.0, (LoopRun(e, s, ws).setpoint - (before + e.limit)) + (before - w.load) - down)
  {
    assert (ws + [w])[..|ws|] == ws;
    ExcessStep(e, LoopRun(e, s, ws), w, down);
    hide LoopStep;
  }

  ghost predicate Steady(e: Site, load: real, ws: seq<Weather>) {
    forall i :: 0 <= i < |ws| ==> ws[i].load == load && Compatible(e.cfg, e.name, e.priority, ws[i].others)
  }

  /** Under constant load the excess drops by one ramp step a cycle until it is within the
      deadband, and stays there, whatever the resource and the other claims do. */
  lemma {:induction false} ExcessDecays(e: Site, s: Loop, load: real, ws: seq<Weather>, down: real)
    requires e.Fit(down) && Steady(e, load, ws) && load + e.limit >= 0.0
    ensures LoopRun(e, s, ws).setpoint - (load + e.limit)
            <= Max(e.cfg.deadband, s.setpoint - (load + e.limit) - Times(|ws|, down))
  {
    hide LoopStep, DownStep;
    if ws != [] {
      var init := ws[..|ws| - 1];
      ExcessDecays(e, s, load, init, down);
      ExcessStep(e, LoopRun(e, s, init), ws[|ws| - 1], down);
    }
  }

  /** Power sent into the network at the connection point. */
  function Export(u: Unit, load: real): real {
    u.power - load
  }

  /** A unit that follows at once: after the cycles the ramp needs for the initial gap, the
      export is within limit plus deadband, at the end of every longer run. */
  lemma ExportWithinLimit(e: Site, s: Loop, load: real, ws: seq<Weather>, down: real)
    requires e.Fit(down) && Steady(e, load, ws) && load + e.limit >= 0.0 && ws != []
    requires e.tau <= 0.0 && s.unit.enabled && !s.unit.ignores
    requires s.setpoint - (load + e.limit) <= Times(|ws|, down) + e.cfg.deadband
    ensures Export(LoopRun(e, s, ws).unit, load) <= e.limit + e.cfg.deadband
  {
    ExcessDecays(e, s, load, ws, down);
    UnitFlags(e, s, ws[..|ws| - 1]);
  }

  lemma {:induction false} UnitFlags(e: Site, s: Loop, ws: seq<Weather>)
    ensures var u := LoopRun(e, s, ws).unit;
            u.enabled == s.unit.enabled && u.ignores == s.unit.ignores && u.pMax == s.unit.pMax
  {
    if ws != [] { UnitFlags(e, s, ws[..|ws| - 1]); }
  }

  predicate Complies(power: real, load: real, limit: real) {
    power >= 0.0 && power - load <= limit
  }

  /** Some production meets the limit exactly when load plus limit is not negative: below
      that the site exports too much with the unit off. */
  lemma LimitReachable(load: real, limit: real)
    ensures (exists power :: Complies(power, load, limit)) <==> load + limit >= 0.0
  {
    if load + limit >= 0.0 { assert Complies(0.0, load, limit); }
  }

  function Pow(a: real, n: nat): real {
    if n == 0 then 1.0 else a * Pow(a, n - 1)
  }

  function Over(power: real, ceiling: real): real {
    Max(0.0, power - ceiling)
  }

  /** The lagging unit follows its setpoint, which is within the deadband of the cap. */
  ghost predicate Settled(e: Site, s: Loop, load: real, ws: seq<Weather>, ceiling: real) {
    && Steady(e, load, ws) && load + e.limit >= 0.0
    && e.tau > 0.0 && 0.0 < e.alpha <= 1.0 && s.unit.enabled && !s.unit.ignores
    && ceiling == load + e.limit + e.cfg.deadband && s.setpoint <= ceiling
  }

  /** With lag, once the setpoint is within the deadband the unit's own excess contracts by
      the lag factor every cycle. */
  lemma LaggedExcessContracts(e: Site, s: Loop, load: real, ws: seq<Weather>, down: real, ceiling: real)
    requires e.Fit(down) && Settled(e, s, load, ws, ceiling)
    ensures Over(LoopRun(e, s, ws).unit.power, ceiling) <= Pow(1.0 - e.alpha, |ws|) * Over(s.unit.power, ceiling)
  {
    hide LoopRun, DownStep, Over, Pow, Sane, Compatible;
    var over := Overs(e, s, ws, ceiling);
    forall i | 0 <= i < |ws| ensures over[i + 1] <= (1.0 - e.alpha) * over[i] {
      assert ws[..i + 1][..i] == ws[..i];
      LaggedStep(e, s, load, ws[..i + 1], down, ceiling);
    }
    Decay(over, 1.0 - e.alpha);
  }

  ghost function Overs(e: Site, s: Loop, ws: seq<Weather>, ceiling: real): (over: seq<real>)
    ensures |over| == |ws| + 1 && over[0] == Over(s.unit.power, ceiling)
    ensures over[|ws|] == Over(LoopRun(e, s, ws).unit.power, ceiling)
    ensures forall i :: 0 <= i <= |ws| ==> over[i] == Over(LoopRun(e, s, ws[..i]).unit.power, ceiling)
  {
    assert ws[..0] == [] && ws[..|ws|] == ws;
    seq(|ws| + 1, i requires 0 <= i <= |ws| => Over(LoopRun(e, s, ws[..i]).unit.power, ceiling))
  }

  lemma StaysUnder(e: Site, s: Loop, load: real, ws: seq<Weather>, down: real, ceiling: real)
    requires e.Fit(down) && Settled(e, s, load, ws, ceiling)
    ensures LoopRun(e, s, ws).setpoint <= ceiling && ceiling >= 0.0
  {
    ExcessDecays(e, s, load, ws, down);
    TimesNonNegative(|ws|, e, down);
    hide LoopRun, Steady, Times;
  }

  lemma LoopMore(e: Site, s: Loop, ws: seq<Weather>)
    requires ws != []
    ensures var t, u := LoopRun(e, s, ws[..|ws| - 1]), LoopRun(e, s, ws);
            u.unit == Respond(t.unit.(setpoint := u.setpoint), ws[|ws| - 1].available, e.tau, e.alpha)
  {
    hide Resolved, Respond;
  }

  lemma LaggedStep(e: Site, s: Loop, load: real, ws: seq<Weather>, down: real, ceiling: real)
    requires e.Fit(down) && Settled(e, s, load, ws, ceiling) && ws != []
    ensures Over(LoopRun(e, s, ws).unit.power, ceiling)
            <= (1.0 - e.alpha) * Over(LoopRun(e, s, ws[..|ws| - 1]).unit.power, ceiling)
  {
    hide LoopRun, Steady, Respond, Over, DownStep, Sane, Site.Fit;
    var t := LoopRun(e, s, ws[..|ws| - 1]);
    StaysUnder(e, s, load, ws, down, ceiling);
    UnitFlags(e, s, ws[..|ws| - 1]);
    LoopMore(e, s, ws);
    LagStep(t.unit.(setpoint := LoopRun(e, s, ws).setpoint), ws[|ws| - 1].available, e.tau, e.alpha, ceiling);
  }

  lemma {:induction false} Decay(over: seq<real>, factor: real)
    requires over != [] && factor >= 0.0
    requires forall i :: 0 <= i < |over| - 1 ==> over[i + 1] <= factor * over[i]
    ensures over[|over| - 1] <= Pow(factor, |over| - 1) * over[0]
  {
    if |over| > 1 {
      Decay(over[..|over| - 1], factor);
      Scale(factor, over[|over| - 2], over[|over| - 1], Pow(factor, |over| - 2), over[0]);
    }
  }

  lemma {:induction false} TimesNonNegative(n: nat, e: Site, down: real)
    requires e.Fit(down)
    ensures Times(n, down) >= 0.0
  {
    if n > 0 { TimesNonNegative(n - 1, e, down); }
  }

  lemma LagStep(u: Unit, available: real, tau: real, alpha: real, ceiling: real)
    requires u.enabled && !u.ignores && u.setpoint <= ceiling && ceiling >= 0.0
    requires tau > 0.0 && 0.0 < alpha <= 1.0
    ensures Over(Respond(u, available, tau, alpha).power, ceiling) <= (1.0 - alpha) * Over(u.power, ceiling)
  {
    var goal := Plant.Goal(u, available);
    var d, e := ceiling - goal, u.power - ceiling;
    var after := Respond(u, available, tau, alpha).power;
    assert d >= 0.0;
    assert after - ceiling == (1.0 - alpha) * e - alpha * d by {
      assert after == u.power + (goal - u.power) * alpha;
      assert (goal - u.power) * alpha == -(d * alpha) - e * alpha;
      assert (1.0 - alpha) * e == e - alpha * e;
    }
    Product(alpha, d);
    if e >= 0.0 { Product(1.0 - alpha, e); } else { Product(1.0 - alpha, -e); assert (1.0 - alpha) * e <= 0.0; }
  }

  lemma Scale(a: real, x: real, next: real, p: real, y: real)
    requires a >= 0.0 && x <= p * y && next <= a * x
    ensures next <= (a * p) * y
  {
    Product(a, p * y - x);
    assert a * (p * y - x) == (a * p) * y - a * x;
  }

  // --- the headroom cap ---------------------------------------------------------------------------------

  /** What one cycle brings: what the unit is measured to produce, and every other claim. */
  datatype Round = Round(production: real, others: seq<Request>)

  datatype Limiter = Limiter(cfg: Config, cycle: real, name: string, priority: int, headroom: real, percent: real) {
    ghost predicate Fit(down: real) {
      && Sane(cfg, cycle) && cfg.pMin <= 0.0 && cfg.deadband >= 0.0 && down == DownStep(cfg, cycle) && down >= 0.0
      && headroom > 0.0 && percent >= 0.0
    }
  }

  function HeadroomStep(e: Limiter, x: real, r: Round): real {
    Resolved(e.cfg, e.cycle, [CapClaim(e.name, e.priority, HeadroomCap(r.production, e.headroom, e.percent))] + r.others, Some(x))
  }

  function HeadroomRun(e: Limiter, x: real, rs: seq<Round>): real {
    if rs == [] then x else HeadroomStep(e, HeadroomRun(e, x, rs[..|rs| - 1]), rs[|rs| - 1])
  }

  /** The cap leaves the larger of the two headrooms above what is produced, and no more; it grows
      with it, and holds back no unit that produces its setpoint to within the headroom. */
  lemma HeadroomLeavesRoom(p: real, q: real, x: real, headroom: real, percent: real)
    requires headroom > 0.0 && percent >= 0.0
    ensures HeadroomCap(p, headroom, percent) >= Max(0.0, p) + headroom
    ensures p <= q ==> HeadroomCap(p, headroom, percent) <= HeadroomCap(q, headroom, percent)
    ensures x <= HeadroomCap(p, headroom, percent) <==>
            x - Max(0.0, p) <= headroom || (x - Max(0.0, p)) * 100.0 <= percent * Max(0.0, p)
    ensures p >= x - headroom ==> x <= HeadroomCap(p, headroom, percent)
  {
    var a, b := Max(0.0, p), Max(0.0, q);
    if a <= b {
      Product(b - a, percent);
      assert (b - a) * percent == b * percent - a * percent;
    }
  }

  ghost predicate Falling(e: Limiter, production: real, rs: seq<Round>) {
    forall i :: 0 <= i < |rs| ==> rs[i].production <= production && Compatible(e.cfg, e.name, e.priority, rs[i].others)
  }

  lemma HeadroomOnce(e: Limiter, x: real, r: Round, production: real, down: real)
    requires e.Fit(down) && r.production <= production && Compatible(e.cfg, e.name, e.priority, r.others)
    ensures var over := HeadroomStep(e, x, r) - HeadroomCap(production, e.headroom, e.percent);
            over < e.cfg.deadband || over <= Max(0.0, x - HeadroomCap(production, e.headroom, e.percent) - down)
  {
    var cap := HeadroomCap(r.production, e.headroom, e.percent);
    HeadroomLeavesRoom(r.production, production, x, e.headroom, e.percent);
    ExportCapStands(e.cfg, e.name, e.priority, cap, r.others);
    CapStep(e.cfg, e.cycle, [CapClaim(e.name, e.priority, cap)] + r.others, CapClaim(e.name, e.priority, cap), x, down);
    hide HeadroomCap, Resolved;
  }

  /** While the unit produces no more than some power, the setpoint comes down to that power's
      headroom, within the deadband, one ramp step a cycle, whatever the other claims do: it
      cannot run away from what is available. */
  lemma {:induction false} HeadroomHolds(e: Limiter, x: real, rs: seq<Round>, production: real, down: real)
    requires e.Fit(down) && Falling(e, production, rs)
    ensures HeadroomRun(e, x, rs) - HeadroomCap(production, e.headroom, e.percent)
            <= Max(e.cfg.deadband, x - HeadroomCap(production, e.headroom, e.percent) - Times(|rs|, down))
  {
    hide HeadroomStep, DownStep, HeadroomCap;
    if rs != [] {
      var init := rs[..|rs| - 1];
      HeadroomHolds(e, x, init, production, down);
      HeadroomOnce(e, HeadroomRun(e, x, init), rs[|rs| - 1], production, down);
    }
  }
}
