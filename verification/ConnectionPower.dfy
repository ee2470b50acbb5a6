/** PID-trimmed regulation at the connection point
    (src/pyems/controllers/connection_point_power.py). */
module ConnectionPower {
  import opened Num
  import opened Requests
  import opened Board
  import opened Channels
  import opened Pid
  import Arbitration
  import Setpoints

  /** importLimit None is an infinite limit. */
  datatype Settings = Settings(
    name: string,
    priority: int,
    exportLimit: real,
    importLimit: Option<real>,
    deadband: real,
    gains: Gains)
  {
    predicate Accepted() {
      && exportLimit >= 0.0 && deadband >= 0.0 && priority >= 0
      && (importLimit.Some? ==> importLimit.value >= 0.0)
    }
  }

  datatype Ctl = Ctl(pid: State, lastNow: Option<real>, lastRequested: Option<real>, limiting: bool)

  datatype Sample = Sample(now: real, pCp: real, pUnit: real, applied: real)

  function Initial(): Ctl {
    Ctl(Fresh(NegInf, PosInf, 0.0), None, None, false)
  }

  function Elapsed(c: Ctl, now: real): Option<real> {
    if c.lastNow.None? then None else Some(now - c.lastNow.value)
  }

  predicate Due(dt: Option<real>) {
    dt.Some? && dt.value > 0.0
  }

  /** Feed back what the arbiter made of the last request. */
  function TrackedPid(g: Gains, c: Ctl, x: Sample): State {
    var dt := Elapsed(c, x.now);
    if Due(dt) && c.lastRequested.Some?
    then Tracked(g, c.pid, x.applied, c.lastRequested.value, dt.value)
    else c.pid
  }

  // --- export-limit mode ---------------------------------------------------------------

  function Cap(k: Settings, x: Sample): real {
    Max(0.0, x.pUnit + x.pCp + k.exportLimit)
  }

  function Floor(k: Settings, x: Sample): real {
    var floor := if k.importLimit.Some? then Max(0.0, x.pUnit + x.pCp - k.importLimit.value) else 0.0;
    if floor > Cap(k, x) then Cap(k, x) else floor
  }

  function CpTarget(k: Settings, x: Sample): real {
    if k.importLimit.Some? && x.pCp > k.importLimit.value then k.importLimit.value else -k.exportLimit
  }

  function FeedForward(k: Settings, x: Sample): real {
    Clamp(x.pUnit + x.pCp - CpTarget(k, x), Floor(k, x), Cap(k, x))
  }

  function Bounded(s: State, lo: real, hi: Ext): State {
    s.(outMin := Fin(lo), outMax := hi)
  }

  ghost predicate Runs(k: Settings, c: Ctl, x: Sample) {
    c.pid.Ok() && (Due(Elapsed(c, x.now)) ==> k.gains.Divides(Elapsed(c, x.now).value))
  }

  function ExportPid(k: Settings, c: Ctl, x: Sample): State
    requires Runs(k, c, x)
  {
    var dt := Elapsed(c, x.now);
    var s := TrackedPid(k.gains, c, x);
    if Due(dt) then
      var ff := FeedForward(k, x);
      Stepped(k.gains, true, Bounded(s, Floor(k, x) - ff, Fin(Cap(k, x) - ff)), -CpTarget(k, x), -x.pCp, dt.value)
    else s
  }

  function ExportTarget(k: Settings, c: Ctl, x: Sample): real
    requires Runs(k, c, x)
  {
    var trim := if Due(Elapsed(c, x.now)) then ExportPid(k, c, x).lastOutput else 0.0;
    Clamp(FeedForward(k, x) + trim, Floor(k, x), Cap(k, x))
  }

  function ExportClaim(k: Settings, c: Ctl, x: Sample): Request
    requires Runs(k, c, x)
  {
    Request(k.name, k.priority, Fin(Floor(k, x)), Fin(Cap(k, x)), Some(Fin(ExportTarget(k, c, x))), None)
  }

  function ExportTick(k: Settings, c: Ctl, x: Sample): Ctl
    requires Runs(k, c, x)
  {
    Ctl(ExportPid(k, c, x), Some(x.now), Some(ExportTarget(k, c, x)), c.limiting)
  }

  // --- import-limit mode -----------------------------------------------------------------

  predicate Released(k: Settings, x: Sample)
    requires k.importLimit.Some?
  {
    x.pCp <= k.importLimit.value + k.deadband
  }

  function ImportFloor(k: Settings, x: Sample): real
    requires k.importLimit.Some?
  {
    Max(0.0, x.pUnit + x.pCp - k.importLimit.value)
  }

  function ImportPid(k: Settings, c: Ctl, x: Sample): State
    requires Runs(k, c, x) && k.importLimit.Some?
  {
    var dt := Elapsed(c, x.now);
    var s := TrackedPid(k.gains, c, x);
    if Due(dt) then Stepped(k.gains, true, Bounded(s, 0.0, PosInf), -k.importLimit.value, -x.pCp, dt.value) else s
  }

  function ImportTarget(k: Settings, c: Ctl, x: Sample): real
    requires Runs(k, c, x) && k.importLimit.Some?
  {
    var trim := if Due(Elapsed(c, x.now)) then ImportPid(k, c, x).lastOutput else 0.0;
    Max(ImportFloor(k, x), ImportFloor(k, x) + trim)
  }

  function ImportClaim(k: Settings, c: Ctl, x: Sample): Request
    requires Runs(k, c, x) && k.importLimit.Some?
  {
    Request(k.name, k.priority, Fin(ImportFloor(k, x)), PosInf, Some(Fin(ImportTarget(k, c, x))), None)
  }

  function ImportTick(k: Settings, c: Ctl, x: Sample): Ctl
    requires Runs(k, c, x) && k.importLimit.Some?
  {
    if Released(k, x) then Ctl(Fresh(c.pid.outMin, c.pid.outMax, 0.0), None, None, false)
    else Ctl(ImportPid(k, c, x), Some(x.now), Some(ImportTarget(k, c, x)), true)
  }

  /** Neither mode ever builds a request its own validation would refuse. */
  lemma ClaimsAreAccepted(k: Settings, c: Ctl, x: Sample)
    requires Runs(k, c, x) && k.Accepted()
    ensures ExportClaim(k, c, x).Accepted()
    ensures k.importLimit.Some? ==> ImportClaim(k, c, x).Accepted()
  {
    hide ExportPid, ImportPid, FeedForward;
  }

  /** The export law claims the powers between its floor and its cap, the import law those from its
      floor on, and both stand until they are replaced or withdrawn. */
  lemma ClaimsStand(k: Settings, c: Ctl, x: Sample, p: real, at: real, now: real)
    requires Runs(k, c, x)
    ensures ExportClaim(k, c, x).Covers(p) <==> Floor(k, x) <= p <= Cap(k, x)
    ensures !Claim(ExportClaim(k, c, x), at).Expired(now)
    ensures k.importLimit.Some? ==>
              (ImportClaim(k, c, x).Covers(p) <==> p >= ImportFloor(k, x)) && !Claim(ImportClaim(k, c, x), at).Expired(now)
  {
    hide ExportTarget, ImportTarget, Floor, Cap;
  }

  /** What is remembered as requested, to be fed back against what the arbiter applies, is what was
      claimed, and when. */
  lemma RequestRemembered(k: Settings, c: Ctl, x: Sample)
    requires Runs(k, c, x)
    ensures var after := ExportTick(k, c, x);
            after.lastRequested.Some? && ExportClaim(k, c, x).target == Some(Fin(after.lastRequested.value))
            && after.lastNow == Some(x.now)
    ensures k.importLimit.Some? && !Released(k, x) ==>
              var after := ImportTick(k, c, x);
              after.lastRequested.Some? && ImportClaim(k, c, x).target == Some(Fin(after.lastRequested.value))
              && after.lastNow == Some(x.now)
  {
    hide ExportTarget, ImportTarget, ExportPid, ImportPid;
  }

  // --- where the loop aims --------------------------------------------------------------------------

  /** The connection-point power the plant is to have: exporting the limit, or importing the other
      limit while more than that is imported. */
  function Aim(k: Settings, pCp: real): real {
    match k.importLimit
    case None => 0.0 - k.exportLimit
    case Some(limit) => if pCp <= limit then 0.0 - k.exportLimit else limit
  }

  /** What the connection point shows once the unit produces p instead, the load being the same. */
  function CpWith(x: Sample, p: real): real {
    x.pCp + x.pUnit - p
  }

  /** The claim holds every production that respects the limits: none above the cap but exports
      more than the limit, and none below the floor but imports more. */
  lemma ClaimKeepsLimits(k: Settings, x: Sample, p: real)
    requires k.Accepted() && p >= 0.0
    ensures p <= Cap(k, x) <==> p == 0.0 || CpWith(x, p) >= -k.exportLimit
    ensures Floor(k, x) <= p <= Cap(k, x) <==>
            (p == 0.0 || CpWith(x, p) >= -k.exportLimit)
            && (k.importLimit.Some? ==> CpWith(x, p) <= k.importLimit.value || p == Cap(k, x))
  {}

  /** A unit that produces the first request brings the connection point to its aim, exactly if the
      claim allows it; and to the nearest the claim allows, if not. */
  lemma FirstRequestMeetsAim(k: Settings, c: Ctl, x: Sample)
    requires k.Accepted() && Runs(k, c, x) && !Due(Elapsed(c, x.now))
    ensures var t := ExportTarget(k, c, x);
            && (CpWith(x, t) == Aim(k, x.pCp) <==> Floor(k, x) <= CpWith(x, Aim(k, x.pCp)) <= Cap(k, x))
            && Floor(k, x) <= t <= Cap(k, x)
            && forall p :: Floor(k, x) <= p <= Cap(k, x) ==>
                 Abs(CpWith(x, t) - Aim(k, x.pCp)) <= Abs(CpWith(x, p) - Aim(k, x.pCp))
  {
    hide ExportPid;
  }

  lemma ErrorIsExcess(k: Settings, x: Sample)
    ensures -CpTarget(k, x) - (-x.pCp) == x.pCp - Aim(k, x.pCp)
  {}

  lemma SteppedBetween(g: Gains, s: State, setpoint: real, measurement: real, dt: real, p: real, i: real, u: real)
    requires g.kd == 0.0 && s.Ok() && Finite(s) && dt > 0.0 && p == g.kp * (setpoint - measurement)
    requires i == s.integral + g.ki * (setpoint - measurement) * dt && u == p + i
    ensures var t := Stepped(g, true, s, setpoint, measurement, dt);
            && Fin(t.lastOutput) == MinE(MaxE(Fin(u), s.outMin), s.outMax)
            && (Le(s.outMin, Fin(u)) && Le(Fin(u), s.outMax) ==> t.integral == i)
  {
    hide Beta, Derivative;
  }

  /** The output of a step under the bounds of the claim, and what it does to the integral. */
  lemma ExportStep(k: Settings, c: Ctl, x: Sample, dt: real, excess: real, i: real, u: real)
    requires k.Accepted() && k.gains.kd == 0.0 && Runs(k, c, x) && Elapsed(c, x.now) == Some(dt) && dt > 0.0
    requires excess == x.pCp - Aim(k, x.pCp) && u == k.gains.kp * excess + i
    requires i == TrackedPid(k.gains, c, x).integral + k.gains.ki * excess * dt
    ensures var ff := FeedForward(k, x);
            && ExportPid(k, c, x).lastOutput == Clamp(u, Floor(k, x) - ff, Cap(k, x) - ff)
            && (Floor(k, x) - ff <= u <= Cap(k, x) - ff ==> ExportPid(k, c, x).integral == i)
  {
    ErrorIsExcess(k, x);
    Geometry(k, x);
    var s := Bounded(TrackedPid(k.gains, c, x), Floor(k, x) - FeedForward(k, x), Fin(Cap(k, x) - FeedForward(k, x)));
    assert s.Ok() && Finite(s);
    hide TrackedPid, Stepped, Floor, Cap, FeedForward, CpTarget, Aim;
    SameProducts(k.gains.kp, k.gains.ki, dt, excess, -CpTarget(k, x) - (-x.pCp));
    SteppedBetween(k.gains, s, -CpTarget(k, x), -x.pCp, dt, k.gains.kp * excess, i, u);
  }

  lemma Geometry(k: Settings, x: Sample)
    ensures 0.0 <= Floor(k, x) <= FeedForward(k, x) <= Cap(k, x)
    ensures FeedForward(k, x) == Clamp(CpWith(x, Aim(k, x.pCp)), Floor(k, x), Cap(k, x))
  {}

  /** The PI law asks for production that meets the aim, as far as the claim allows, corrected by the
      excess of the connection point over its aim. The request is that, cut to the claim; and the
      integral takes up the excess while nothing is cut. */
  lemma TrimFollowsExcess(k: Settings, c: Ctl, x: Sample, dt: real, integral: real, demand: real)
    requires k.Accepted() && k.gains.kd == 0.0 && Runs(k, c, x) && Elapsed(c, x.now) == Some(dt) && dt > 0.0
    requires integral == TrackedPid(k.gains, c, x).integral + k.gains.ki * (x.pCp - Aim(k, x.pCp)) * dt
    requires demand == Clamp(CpWith(x, Aim(k, x.pCp)), Floor(k, x), Cap(k, x))
                       + (k.gains.kp * (x.pCp - Aim(k, x.pCp)) + integral)
    ensures ExportTarget(k, c, x) == Clamp(demand, Floor(k, x), Cap(k, x))
    ensures Floor(k, x) <= demand <= Cap(k, x) ==> ExportPid(k, c, x).integral == integral
  {
    Geometry(k, x);
    hide TrackedPid, ExportPid, Floor, Cap, FeedForward, Aim, CpWith;
    var excess := x.pCp - Aim(k, x.pCp);
    ExportStep(k, c, x, dt, excess, integral, k.gains.kp * excess + integral);
  }

  lemma Sign(a: real, b: real, c: real)
    requires a > 0.0 && c > 0.0
    ensures (a * b * c > 0.0 <==> b > 0.0) && (a * b * c == 0.0 <==> b == 0.0)
  {
    Positive(a, c);
    assert a * b * c == (a * c) * b;
    if b > 0.0 { Positive(a * c, b); }
    if b < 0.0 { Positive(a * c, -b); }
  }

  /** The integral raises the request exactly when the connection point is above its aim; and the
      loop is at rest, applied as requested, exactly when it is at it. */
  lemma RestsAtAim(k: Settings, c: Ctl, x: Sample, dt: real, integral: real, demand: real)
    requires k.Accepted() && k.gains.kd == 0.0 && k.gains.ki > 0.0
    requires Runs(k, c, x) && Elapsed(c, x.now) == Some(dt) && dt > 0.0 && c.lastRequested == Some(x.applied)
    requires integral == c.pid.integral + k.gains.ki * (x.pCp - Aim(k, x.pCp)) * dt
    requires demand == Clamp(CpWith(x, Aim(k, x.pCp)), Floor(k, x), Cap(k, x))
                       + (k.gains.kp * (x.pCp - Aim(k, x.pCp)) + integral)
    requires Floor(k, x) <= demand <= Cap(k, x)
    ensures ExportPid(k, c, x).integral > c.pid.integral <==> x.pCp > Aim(k, x.pCp)
    ensures ExportPid(k, c, x).integral == c.pid.integral <==> x.pCp == Aim(k, x.pCp)
  {
    hide *;
    AppliedAsRequested(k, c, x, dt);
    TrimFollowsExcess(k, c, x, dt, integral, demand);
    Sign(k.gains.ki, x.pCp - Aim(k, x.pCp), dt);
  }

  lemma AppliedAsRequested(k: Settings, c: Ctl, x: Sample, dt: real)
    requires Elapsed(c, x.now) == Some(dt) && dt > 0.0 && c.lastRequested == Some(x.applied)
    ensures TrackedPid(k.gains, c, x) == c.pid
  {}

  /** In import mode the law is at work exactly while more than the limit and the deadband is
      imported. A unit that produces what it requests imports no more than the limit: at first
      exactly the limit, unless it need not produce for it. */
  lemma ImportRequestMeetsLimit(k: Settings, c: Ctl, x: Sample, limit: real)
    requires k.Accepted() && k.importLimit == Some(limit) && Runs(k, c, x)
    ensures ImportTick(k, c, x).limiting <==> x.pCp - limit > k.deadband
    ensures ImportTick(k, c, x).lastRequested.None? <==> x.pCp - limit <= k.deadband
    ensures x.pCp - limit <= k.deadband ==> ImportTick(k, c, x).pid.integral == 0.0 && !ImportTick(k, c, x).pid.initialized
    ensures CpWith(x, ImportTarget(k, c, x)) <= limit && ImportTarget(k, c, x) >= 0.0
    ensures !Due(Elapsed(c, x.now)) ==> CpWith(x, ImportTarget(k, c, x)) == limit || ImportTarget(k, c, x) == 0.0
  {
    hide ImportPid;
  }

  /** The import law asks for what meets the limit and the PI of the excess over it, or for the former
      if the latter is negative. */
  lemma ImportTrimFollowsExcess(k: Settings, c: Ctl, x: Sample, dt: real, limit: real, excess: real, integral: real, trim: real)
    requires k.Accepted() && k.importLimit == Some(limit) && k.gains.kd == 0.0
    requires Runs(k, c, x) && Elapsed(c, x.now) == Some(dt) && dt > 0.0
    requires excess == x.pCp - limit && integral == TrackedPid(k.gains, c, x).integral + k.gains.ki * excess * dt
    requires trim == k.gains.kp * excess + integral
    ensures ImportTarget(k, c, x) == ImportFloor(k, x) + Max(0.0, trim)
    ensures trim >= 0.0 ==> ImportPid(k, c, x).integral == integral
  {
    var s := Bounded(TrackedPid(k.gains, c, x), 0.0, PosInf);
    assert s.Ok() && Finite(s) && -limit - (-x.pCp) == x.pCp - limit;
    hide TrackedPid, Stepped, ImportFloor;
    SameProducts(k.gains.kp, k.gains.ki, dt, excess, -limit - (-x.pCp));
    SteppedBetween(k.gains, s, -limit, -x.pCp, dt, k.gains.kp * excess, integral, trim);
  }

  class ConnectionPointPowerController {
    const k: Settings
    const importMode: bool
    const cpChannel: string
    const unitChannel: string
    const setpointChannel: string
    const pid: PIDController
    var lastNow: Option<real>
    var lastRequested: Option<real>
    var limiting: bool

    constructor (k: Settings, importMode: bool, cpChannel: string, unitChannel: string, setpointChannel: string)
      requires k.Accepted() && (importMode ==> k.importLimit.Some?)
      ensures this.k == k && this.importMode == importMode && this.cpChannel == cpChannel
      ensures this.unitChannel == unitChannel && this.setpointChannel == setpointChannel
      ensures Valid() && View() == Initial() && fresh(pid)
    {
      this.k, this.importMode, this.cpChannel := k, importMode, cpChannel;
      this.unitChannel, this.setpointChannel := unitChannel, setpointChannel;
      this.pid := new PIDController(k.gains, NegInf, PosInf, true);
      lastNow, lastRequested, limiting := None, None, false;
    }

    ghost predicate Valid()
      reads this, pid
    {
      && k.Accepted() && (importMode ==> k.importLimit.Some?)
      && pid.Valid() && pid.gains == k.gains && pid.onMeasurement
    }

    function View(): Ctl
      reads this, pid
    {
      Ctl(pid.View(), lastNow, lastRequested, limiting)
    }

    ghost predicate Bound(state: SystemState, board: RequestBoard)
      reads state, board
    {
      && state.HasReal(cpChannel) && state.HasReal(unitChannel) && state.HasReal(setpointChannel)
      && board.Valid() && setpointChannel in board.claims
    }

    ghost function Read(state: SystemState, now: real): (x: Sample)
      requires state.HasReal(cpChannel) && state.HasReal(unitChannel) && state.HasReal(setpointChannel)
      reads state
      ensures x.now == now && state.Get(cpChannel) == Fin(x.pCp)
      ensures state.Get(unitChannel) == Fin(x.pUnit) && state.Get(setpointChannel) == Fin(x.applied)
    {
      Sample(now, state.Get(cpChannel).w, state.Get(unitChannel).w, state.Get(setpointChannel).w)
    }

    /** Feeds the applied setpoint back; returns the elapsed time. */
    method TrackApplied(applied: real, now: real) returns (dt: Option<real>)
      requires Valid()
      modifies pid
      ensures Valid()
      ensures dt == Elapsed(old(View()), now)
      ensures forall x: Sample :: x.now == now && x.applied == applied ==>
                pid.View() == TrackedPid(k.gains, old(View()), x)
    {
      dt := if lastNow.None? then None else Some(now - lastNow.value);
      if dt.Some? && dt.value > 0.0 && lastRequested.Some? {
        var _ := pid.TrackAppliedOutput(applied, lastRequested.value, dt.value);
      }
    }

    /** One PID step under the output bounds that keep the target inside the claim. */
    method Trim(dt: Option<real>, lo: real, hi: Ext, setpoint: real, measurement: real) returns (trim: real)
      requires Valid() && Le(Fin(lo), hi) && (Due(dt) ==> k.gains.Divides(dt.value))
      modifies pid
      ensures Valid()
      ensures pid.View() == if Due(dt) then Stepped(k.gains, true, Bounded(old(pid.View()), lo, hi), setpoint, measurement, dt.value)
                            else old(pid.View())
      ensures trim == if Due(dt) then pid.lastOutput else 0.0
    {
      hide Stepped;
      trim := 0.0;
      if dt.Some? && dt.value > 0.0 {
        pid.outMin, pid.outMax := Fin(lo), hi;
        var _, u := pid.Step(setpoint, measurement, dt.value);
        trim := u;
      }
    }

    /** The export-limit law on one sample: the new controller state and the claim to post. */
    method Regulate(x: Sample) returns (claim: Request)
      requires Valid() && Runs(k, View(), x)
      modifies this`lastNow, this`lastRequested, pid
      ensures Valid()
      ensures View() == ExportTick(k, old(View()), x) && claim == ExportClaim(k, old(View()), x)
    {
      hide Stepped, Tracked;
      var dt := TrackApplied(x.applied, x.now);
      var cap := Max(0.0, x.pUnit + x.pCp + k.exportLimit);
      var floor := if k.importLimit.Some? then Max(0.0, x.pUnit + x.pCp - k.importLimit.value) else 0.0;
      if floor > cap { floor := cap; }
      var cpTarget := -k.exportLimit;
      if k.importLimit.Some? && x.pCp > k.importLimit.value { cpTarget := k.importLimit.value; }
      var feedForward := Clamp(x.pUnit + x.pCp - cpTarget, floor, cap);
      var trim := Trim(dt, floor - feedForward, Fin(cap - feedForward), -cpTarget, -x.pCp);
      var target := Clamp(feedForward + trim, floor, cap);
      claim := Request(k.name, k.priority, Fin(floor), Fin(cap), Some(Fin(target)), None);
      lastNow, lastRequested := Some(x.now), Some(target);
    }

    method ExecuteExport(state: SystemState, board: RequestBoard)
      requires Valid() && Bound(state, board)
      requires Runs(k, View(), Read(state, board.now))
      modifies this`lastNow, this`lastRequested, pid, board`claims
      ensures Valid() && board.Valid()
      ensures var x := Read(state, board.now);
              && View() == ExportTick(k, old(View()), x)
              && board.claims == Posted(old(board.claims), setpointChannel,
                                        Claim(ExportClaim(k, old(View()), x), board.now))
    {
      hide ExportTick, ExportTarget;
      var x := Sample(board.now, state.Get(cpChannel).w, state.Get(unitChannel).w, state.Get(setpointChannel).w);
      var claim := Regulate(x);
      var _ := board.Post(setpointChannel, claim, None);
    }

    method ExecuteImport(state: SystemState, board: RequestBoard)
      requires Valid() && Bound(state, board) && k.importLimit.Some?
      requires Runs(k, View(), Read(state, board.now))
      modifies this, pid, board`claims
      ensures Valid() && board.Valid()
      ensures var x := Read(state, board.now);
              && View() == ImportTick(k, old(View()), x)
              && board.claims == if Released(k, x) then Withdrawn(old(board.claims), setpointChannel, k.name)
                                 else Posted(old(board.claims), setpointChannel,
                                             Claim(ImportClaim(k, old(View()), x), board.now))
    {
      hide Stepped, Tracked;
      var now, limit := board.now, k.importLimit.value;
      var pCp, pUnit := state.Get(cpChannel).w, state.Get(unitChannel).w;
      if pCp <= limit + k.deadband {
        var _ := board.Withdraw(setpointChannel, k.name);
        pid.Reset(0.0);
        lastNow, lastRequested, limiting := None, None, false;
        return;
      }
      var dt := TrackApplied(state.Get(setpointChannel).w, now);
      var floor := Max(0.0, pUnit + pCp - limit);
      var trim := Trim(dt, 0.0, PosInf, -limit, -pCp);
      var target := Max(floor, floor + trim);
      var _ := board.Post(setpointChannel,
        Request(k.name, k.priority, Fin(floor), PosInf, Some(Fin(target)), None), None);
      lastNow, lastRequested, limiting := Some(now), Some(target), true;
    }
  }

  // --- the integrator over whole runs ----------------------------------------------------

  /** Executions dt apart, on a plant whose load, meter and envelope stay within bounds. */
  ghost predicate Regular(xs: seq<Sample>, dt: real, load: real, meter: real, pMin: real, pMax: real) {
    && (forall i :: 0 <= i < |xs| ==> InLimits(xs[i], load, meter, pMin, pMax))
    && (forall i :: 0 < i < |xs| ==> xs[i].now == xs[i - 1].now + dt)
  }

  ghost predicate Windable(g: Gains, dt: real) {
    g.kd == 0.0 && g.ki > 0.0 && g.kp >= 0.0 && TrackingTime(g) > 0.0 && dt > 0.0
  }

  function ExportRun(k: Settings, xs: seq<Sample>): (c: Ctl)
    requires k.gains.kd == 0.0
    ensures c.pid.Ok() && c.lastNow == if xs == [] then None else Some(xs[|xs| - 1].now)
  {
    if xs == [] then Initial() else ExportTick(k, ExportRun(k, xs[..|xs| - 1]), xs[|xs| - 1])
  }

  /** Gap and integration per cycle, over the feedback fraction. */
  function Drive(g: Gains, dt: real, gap: real, error: real): real
    requires Windable(g, dt)
  {
    BetaRange(g, dt);
    gap + g.ki * error * dt / Beta(g, dt)
  }

  /** The explicit bound: the widest output, the largest proportional part, and what gap and
      integration leave after feedback. */
  function ExportBound(k: Settings, dt: real, load: real, meter: real, gap: real): real
    requires Windable(k.gains, dt)
  {
    AbsBound(load + k.exportLimit, k.gains.kp * (meter + k.exportLimit), Beta(k.gains, dt),
             Drive(k.gains, dt, gap, meter + k.exportLimit))
  }

  /** The plant's limits: the gap between applied and requested setpoints follows from them. */
  ghost predicate ExportLimits(k: Settings, dt: real, load: real, meter: real, pMin: real, pMax: real, gap: real) {
    && k.Accepted() && Windable(k.gains, dt) && load >= 0.0 && meter >= 0.0
    && gap >= 0.0 && gap >= pMax && gap >= load + k.exportLimit - pMin
  }

  ghost predicate ExportKept(k: Settings, c: Ctl, load: real, bound: real) {
    && -bound <= c.pid.integral <= bound
    && (c.lastRequested.Some? ==> 0.0 <= c.lastRequested.value <= load + k.exportLimit)
  }

  /** Over every run of export-limit regulation the integral keeps one explicit bound. */
  lemma {:induction false} ExportIntegralBounded(
    k: Settings, xs: seq<Sample>, dt: real, load: real, meter: real, pMin: real, pMax: real, gap: real)
    requires ExportLimits(k, dt, load, meter, pMin, pMax, gap) && Regular(xs, dt, load, meter, pMin, pMax)
    ensures var bound := ExportBound(k, dt, load, meter, gap);
            -bound <= ExportRun(k, xs).pid.integral <= bound
    ensures ExportKept(k, ExportRun(k, xs), load, ExportBound(k, dt, load, meter, gap))
  {
    BoundNonNegative(k, dt, load, meter, pMin, pMax, gap);
    hide ExportBound, ExportTick;
    if xs != [] {
      var init, x := xs[..|xs| - 1], xs[|xs| - 1];
      ExportIntegralBounded(k, init, dt, load, meter, pMin, pMax, gap);
      ExportTickKept(k, ExportRun(k, init), x, dt, load, meter, pMin, pMax, gap);
    }
  }

  lemma DriveFits(g: Gains, dt: real, gap: real, error: real)
    requires Windable(g, dt) && gap >= 0.0 && error >= 0.0
    ensures Beta(g, dt) * Drive(g, dt, gap, error) == Beta(g, dt) * gap + g.ki * error * dt
    ensures Drive(g, dt, gap, error) >= 0.0
  {
    BetaRange(g, dt);
    Nonneg(g.ki, error);
    Nonneg(g.ki * error, dt);
    var v, beta := g.ki * error * dt, Beta(g, dt);
    assert (v / beta) * beta == v;
    QuotientNonneg(v, beta);
  }

  lemma BoundNonNegative(k: Settings, dt: real, load: real, meter: real, pMin: real, pMax: real, gap: real)
    requires ExportLimits(k, dt, load, meter, pMin, pMax, gap)
    ensures ExportBound(k, dt, load, meter, gap) >= 0.0
  {
    DriveFits(k.gains, dt, gap, meter + k.exportLimit);
    BetaRange(k.gains, dt);
    hide Beta, Drive, TrackingTime;
    Nonneg(k.gains.kp, meter + k.exportLimit);
    Nonneg(1.0 - Beta(k.gains, dt), Drive(k.gains, dt, gap, meter + k.exportLimit));
  }

  lemma ExportGeometry(k: Settings, x: Sample, load: real, meter: real)
    requires k.Accepted() && -load <= x.pUnit + x.pCp <= load && -meter <= x.pCp <= meter
    ensures 0.0 <= Floor(k, x) <= FeedForward(k, x) <= Cap(k, x) <= load + k.exportLimit
    ensures -(meter + k.exportLimit) <= x.pCp - CpTarget(k, x) <= meter + k.exportLimit
  {}

  lemma ExportRequested(k: Settings, c: Ctl, x: Sample, load: real, meter: real)
    requires k.Accepted() && -load <= x.pUnit + x.pCp <= load && -meter <= x.pCp <= meter && Runs(k, c, x)
    ensures 0.0 <= ExportTarget(k, c, x) <= load + k.exportLimit
  {
    ExportGeometry(k, x, load, meter);
    hide ExportPid, FeedForward, Floor, Cap;
  }

  ghost predicate InLimits(x: Sample, load: real, meter: real, pMin: real, pMax: real) {
    -load <= x.pUnit + x.pCp <= load && -meter <= x.pCp <= meter && pMin <= x.applied <= pMax
  }

  lemma ExportTickKept(
    k: Settings, c: Ctl, x: Sample, dt: real, load: real, meter: real, pMin: real, pMax: real, gap: real)
    requires ExportLimits(k, dt, load, meter, pMin, pMax, gap) && InLimits(x, load, meter, pMin, pMax)
    requires c.pid.Ok() && ExportKept(k, c, load, ExportBound(k, dt, load, meter, gap))
    requires Elapsed(c, x.now).None? || (Elapsed(c, x.now) == Some(dt) && c.lastRequested.Some?)
    ensures ExportKept(k, ExportTick(k, c, x), load, ExportBound(k, dt, load, meter, gap))
  {
    hide ExportBound, ExportPid;
    ExportRequested(k, c, x, load, meter);
    if Elapsed(c, x.now).Some? {
      ExportPidBounded(k, c, x, dt, load, meter, pMin, pMax, gap);
    } else {
      FirstPid(k, c, x);
    }
  }

  lemma FirstPid(k: Settings, c: Ctl, x: Sample)
    requires Runs(k, c, x) && Elapsed(c, x.now).None?
    ensures ExportPid(k, c, x) == c.pid
  {}

  lemma ExportPidBounded(
    k: Settings, c: Ctl, x: Sample, dt: real, load: real, meter: real, pMin: real, pMax: real, gap: real)
    requires ExportLimits(k, dt, load, meter, pMin, pMax, gap) && InLimits(x, load, meter, pMin, pMax)
    requires c.pid.Ok() && ExportKept(k, c, load, ExportBound(k, dt, load, meter, gap))
    requires Elapsed(c, x.now) == Some(dt) && c.lastRequested.Some?
    ensures var bound := ExportBound(k, dt, load, meter, gap);
            -bound <= ExportPid(k, c, x).integral <= bound
  {
    hide Beta, Drive, TrackingTime, Stepped, Cap, Floor, CpTarget, FeedForward;
    var w, e := load + k.exportLimit, meter + k.exportLimit;
    ExportGeometry(k, x, load, meter);
    DriveFits(k.gains, dt, gap, e);
    var lo, hi := Floor(k, x) - FeedForward(k, x), Cap(k, x) - FeedForward(k, x);
    var s := Bounded(c.pid, lo, Fin(hi));
    var requested := c.lastRequested.value;
    assert Bounded(Tracked(k.gains, c.pid, x.applied, requested, dt), lo, Fin(hi))
        == Tracked(k.gains, s, x.applied, requested, dt);
    TrackThenStepBounded(k.gains, s, x.applied, requested, -CpTarget(k, x), -x.pCp, dt, w, e, gap,
                         Drive(k.gains, dt, gap, e), ExportBound(k, dt, load, meter, gap));
  }

  function ImportRun(k: Settings, xs: seq<Sample>): (c: Ctl)
    requires k.gains.kd == 0.0 && k.importLimit.Some?
    ensures c.pid.Ok() && (c.lastNow.Some? ==> xs != [] && c.lastNow.value == xs[|xs| - 1].now)
    ensures c.lastNow.Some? <==> c.lastRequested.Some?
  {
    if xs == [] then Initial() else ImportTick(k, ImportRun(k, xs[..|xs| - 1]), xs[|xs| - 1])
  }

  /** The numbers of one import-limit loop, fixed for a run. */
  datatype Numbers = Numbers(beta: real, qMax: real, dMax: real, low: real, high: real)

  function ImportNumbers(g: Gains, dt: real, load: real, meter: real, pMin: real, pMax: real): Numbers
    requires Windable(g, dt)
  {
    Numbers(Beta(g, dt), g.kp * meter, g.ki * meter * dt,
            (1.0 - Beta(g, dt)) * (load - pMin) + g.kp * meter, Drive(g, dt, pMax, meter))
  }

  /** What keeps the one-sided loop from winding up: the integral never exceeds the last
      request, and no request exceeds the floor by more than the output it came from. */
  ghost predicate ImportKept(c: Ctl, load: real, n: Numbers) {
    && -n.low <= c.pid.integral <= n.high
    && (c.lastRequested.None? ==> c.pid.integral == 0.0)
    && (c.lastRequested.Some? ==> c.pid.integral <= c.lastRequested.value <= load + Max(0.0, c.pid.integral + n.qMax))
  }

  ghost predicate ImportLimits(k: Settings, dt: real, load: real, meter: real, pMin: real, pMax: real) {
    && k.Accepted() && k.importLimit.Some? && Windable(k.gains, dt)
    && load >= 0.0 && meter >= 0.0 && pMin <= 0.0 <= pMax
  }

  /** In import-limit mode the output has no upper bound, yet the integral has: the applied
      setpoint fed back holds it under pMax + ki * E * dt / beta, and the floor holds it up. */
  lemma {:induction false} ImportIntegralBounded(
    k: Settings, xs: seq<Sample>, dt: real, load: real, meter: real, pMin: real, pMax: real)
    requires ImportLimits(k, dt, load, meter, pMin, pMax) && Regular(xs, dt, load, meter, pMin, pMax)
    ensures ImportRun(k, xs).pid.integral <= Drive(k.gains, dt, pMax, meter)
    ensures ImportKept(ImportRun(k, xs), load, ImportNumbers(k.gains, dt, load, meter, pMin, pMax))
  {
    var n := ImportNumbers(k.gains, dt, load, meter, pMin, pMax);
    NumbersFit(k, dt, load, meter, pMin, pMax, n);
    hide NumbersAgree, ImportPid, Drive;
    if xs != [] {
      var init, x := xs[..|xs| - 1], xs[|xs| - 1];
      ImportIntegralBounded(k, init, dt, load, meter, pMin, pMax);
      var c := ImportRun(k, init);
      hide ImportNumbers;
      if !Released(k, x) {
        if c.lastNow.Some? {
          assert Elapsed(c, x.now) == Some(dt);
          ImportTickKept(k, c, x, dt, load, meter, pMin, pMax, n);
        } else {
          ImportFirstKept(k, c, x, load, meter, pMin, pMax, n);
        }
      }
    }
  }

  /** The applied setpoints are what the arbiter makes of some run of claims. */
  ghost predicate FromArbiter(xs: seq<Sample>, cfg: Arbitration.Config, cycle: real, rounds: seq<seq<Request>>) {
    && Setpoints.Sane(cfg, cycle) && |rounds| == |xs|
    && forall i :: 0 <= i < |xs| ==> Setpoints.LastAfter(cfg, cycle, None, rounds[..i + 1]) == Some(xs[i].applied)
  }

  ghost predicate Metered(xs: seq<Sample>, dt: real, load: real, meter: real) {
    && (forall i :: 0 <= i < |xs| ==> -load <= xs[i].pUnit + xs[i].pCp <= load && -meter <= xs[i].pCp <= meter)
    && (forall i :: 0 < i < |xs| ==> xs[i].now == xs[i - 1].now + dt)
  }

  lemma ArbiterKeepsLimits(
    xs: seq<Sample>, dt: real, load: real, meter: real, cfg: Arbitration.Config, cycle: real, rounds: seq<seq<Request>>)
    requires FromArbiter(xs, cfg, cycle, rounds) && Metered(xs, dt, load, meter)
    ensures Regular(xs, dt, load, meter, cfg.pMin, cfg.pMax)
  {
    forall i | 0 <= i < |xs| ensures InLimits(xs[i], load, meter, cfg.pMin, cfg.pMax) {
      Setpoints.EnvelopeAlways(cfg, cycle, rounds[..i + 1]);
    }
    hide Setpoints.LastAfter;
  }

  /** Closed around the arbiter, whatever else is claimed: its envelope alone bounds the integral
      of a law whose output has no upper bound. */
  lemma ArbiterBoundsImportIntegral(
    k: Settings, xs: seq<Sample>, dt: real, load: real, meter: real, cfg: Arbitration.Config, cycle: real, rounds: seq<seq<Request>>)
    requires ImportLimits(k, dt, load, meter, cfg.pMin, cfg.pMax)
    requires FromArbiter(xs, cfg, cycle, rounds) && Metered(xs, dt, load, meter)
    ensures ImportRun(k, xs).pid.integral <= Drive(k.gains, dt, cfg.pMax, meter)
  {
    ArbiterKeepsLimits(xs, dt, load, meter, cfg, cycle, rounds);
    ImportIntegralBounded(k, xs, dt, load, meter, cfg.pMin, cfg.pMax);
    hide FromArbiter, Metered, Regular, ImportKept, ImportNumbers, ImportRun, Drive;
  }

  /** n + 1 executions under one overload, fed back its own requests as if all were applied. */
  function Unchecked(k: Settings, pCp: real, pUnit: real, dt: real, n: nat): (c: Ctl)
    requires k.gains.kd == 0.0 && k.importLimit.Some? && dt > 0.0 && pCp > k.importLimit.value + k.deadband
    ensures c.pid.Ok() && c.lastNow == Some(Times(n, dt)) && c.lastRequested.Some?
  {
    if n == 0 then ImportTick(k, Initial(), Sample(0.0, pCp, pUnit, 0.0))
    else
      var c := Unchecked(k, pCp, pUnit, dt, n - 1);
      ImportTick(k, c, Sample(Times(n, dt), pCp, pUnit, c.lastRequested.value))
  }

  /** A step of the one-sided law above its lower bound integrates the whole error. */
  lemma FreeStep(g: Gains, s: State, setpoint: real, measurement: real, dt: real, moved: real)
    requires g.kd == 0.0 && g.kp >= 0.0 && s.Ok() && dt > 0.0 && setpoint >= measurement
    requires moved == g.ki * (setpoint - measurement) * dt && moved >= 0.0 && s.integral >= 0.0
    ensures Stepped(g, true, Bounded(s, 0.0, PosInf), setpoint, measurement, dt).integral == s.integral + moved
  {
    hide Stepped;
    var error, bounded := setpoint - measurement, Bounded(s, 0.0, PosInf);
    var p, i := g.kp * error, s.integral + moved;
    Nonneg(g.kp, error);
    assert bounded.outMin == Fin(0.0) && bounded.outMax == PosInf && bounded.integral == s.integral && p + i >= 0.0;
    SteppedBetween(g, bounded, setpoint, measurement, dt, p, i, p + i);
  }

  lemma {:induction false} UncheckedWindsUp(k: Settings, pCp: real, pUnit: real, dt: real, n: nat, moved: real)
    requires k.gains.kd == 0.0 && k.gains.kp >= 0.0 && k.importLimit.Some? && dt > 0.0 && k.deadband >= 0.0
    requires pCp > k.importLimit.value + k.deadband
    requires moved == k.gains.ki * (pCp - k.importLimit.value) * dt && moved >= 0.0
    ensures Unchecked(k, pCp, pUnit, dt, n).pid.integral == Times(n, moved) >= 0.0
  {
    hide Stepped;
    if n > 0 {
      UncheckedWindsUp(k, pCp, pUnit, dt, n - 1, moved);
      var c := Unchecked(k, pCp, pUnit, dt, n - 1);
      FreeStep(k.gains, c.pid, -k.importLimit.value, -pCp, dt, moved);
      TrackOwn(k.gains, c.pid, c.lastRequested.value, dt);
    }
  }

  lemma TrackOwn(g: Gains, s: State, w: real, dt: real)
    ensures Tracked(g, s, w, w, dt) == s
  {}

  lemma PositiveDrive(ki: real, error: real, dt: real) returns (moved: real)
    requires ki > 0.0 && error > 0.0 && dt > 0.0
    ensures moved == ki * error * dt && moved > 0.0
  {
    Positive(ki, error);
    Positive(ki * error, dt);
    moved := ki * error * dt;
  }

  /** Only the applied setpoint bounds it: fed back its own requests, the law exceeds every bound,
      whatever its tracking time. */
  lemma ImportNeedsFeedback(k: Settings, pCp: real, pUnit: real, dt: real, bound: real) returns (n: nat)
    requires k.gains.kd == 0.0 && k.gains.kp >= 0.0 && k.gains.ki > 0.0 && k.importLimit.Some? && dt > 0.0 && k.deadband >= 0.0
    requires pCp > k.importLimit.value + k.deadband
    ensures Unchecked(k, pCp, pUnit, dt, n).pid.integral > bound
  {
    hide Unchecked;
    var moved := PositiveDrive(k.gains.ki, pCp - k.importLimit.value, dt);
    n := Beyond(bound, moved);
    UncheckedWindsUp(k, pCp, pUnit, dt, n, moved);
    TimesIsProduct(n, moved);
  }

  /** The products the numbers stand for, and what feedback makes of them. */
  ghost predicate NumbersAgree(g: Gains, dt: real, load: real, meter: real, pMin: real, pMax: real, n: Numbers) {
    && n.beta == Beta(g, dt) && n.qMax == g.kp * meter && n.dMax == g.ki * meter * dt
    && n.low == (1.0 - n.beta) * (load - pMin) + n.qMax && n.beta * n.high == n.beta * pMax + n.dMax
  }

  ghost predicate NumbersRange(n: Numbers) {
    0.0 < n.beta <= 1.0 && n.qMax >= 0.0 && n.dMax >= 0.0 && n.low >= 0.0 && n.high >= 0.0
  }

  lemma NumbersFit(k: Settings, dt: real, load: real, meter: real, pMin: real, pMax: real, n: Numbers)
    requires ImportLimits(k, dt, load, meter, pMin, pMax)
    requires n == ImportNumbers(k.gains, dt, load, meter, pMin, pMax)
    ensures NumbersAgree(k.gains, dt, load, meter, pMin, pMax, n) && NumbersRange(n)
    ensures n.high == Drive(k.gains, dt, pMax, meter)
  {
    var g := k.gains;
    DriveFits(g, dt, pMax, meter);
    BetaRange(g, dt);
    hide Beta, Drive, TrackingTime;
    Nonneg(g.kp, meter);
    Nonneg(g.ki, meter);
    Nonneg(g.ki * meter, dt);
    Nonneg(1.0 - Beta(g, dt), load - pMin);
  }

  lemma ImportFirstKept(
    k: Settings, c: Ctl, x: Sample, load: real, meter: real, pMin: real, pMax: real, n: Numbers)
    requires k.Accepted() && k.importLimit.Some? && Runs(k, c, x) && !Released(k, x) && load >= 0.0
    requires InLimits(x, load, meter, pMin, pMax) && Elapsed(c, x.now).None? && c.lastRequested.None?
    requires NumbersRange(n) && ImportKept(c, load, n)
    ensures ImportKept(ImportTick(k, c, x), load, n)
  {}

  /** The products of one engaged execution. */
  datatype Terms = Terms(pull: real, d: real, q: real, candidate: real, fed: real)

  ghost predicate TermsAgree(g: Gains, dt: real, c: Ctl, applied: real, e: real, n: Numbers, t: Terms)
    requires c.lastRequested.Some?
  {
    && t.pull == n.beta * (applied - c.lastRequested.value) && t.q == g.kp * e && t.d == g.ki * e * dt
    && t.candidate == c.pid.integral + t.pull + t.d && t.fed == n.beta * (t.q + t.candidate)
  }

  lemma ImportTickKept(
    k: Settings, c: Ctl, x: Sample, dt: real, load: real, meter: real, pMin: real, pMax: real, n: Numbers)
    requires ImportLimits(k, dt, load, meter, pMin, pMax) && InLimits(x, load, meter, pMin, pMax)
    requires Runs(k, c, x) && !Released(k, x) && Elapsed(c, x.now) == Some(dt) && c.lastRequested.Some?
    requires NumbersAgree(k.gains, dt, load, meter, pMin, pMax, n) && NumbersRange(n) && ImportKept(c, load, n)
    ensures ImportKept(ImportTick(k, c, x), load, n)
  {
    hide NumbersAgree, TermsAgree, ImportTick, Runs;
    var e := x.pCp - k.importLimit.value;
    var t := ImportTicked(k, c, x, dt, load, meter, pMin, pMax, n);
    TermsInRange(k.gains, dt, load, meter, pMin, pMax, n, c, x.applied, e, t);
    ImportConclude(ImportTick(k, c, x), ImportFloor(k, x), load, n, t);
  }

  /** The next integral and request of an engaged execution, from its terms. */
  lemma ImportTicked(
    k: Settings, c: Ctl, x: Sample, dt: real, load: real, meter: real, pMin: real, pMax: real, n: Numbers)
    returns (t: Terms)
    requires ImportLimits(k, dt, load, meter, pMin, pMax) && NumbersAgree(k.gains, dt, load, meter, pMin, pMax, n)
    requires Runs(k, c, x) && !Released(k, x) && Elapsed(c, x.now) == Some(dt) && c.lastRequested.Some?
    ensures TermsAgree(k.gains, dt, c, x.applied, x.pCp - k.importLimit.value, n, t)
    ensures ImportTick(k, c, x).pid.integral == if t.q + t.candidate < 0.0 then t.candidate - t.fed else t.candidate
    ensures ImportTick(k, c, x).lastRequested == Some(ImportFloor(k, x) + Max(0.0, t.q + t.candidate))
  {
    hide Stepped, Beta, TrackingTime;
    var e := x.pCp - k.importLimit.value;
    var s := Bounded(TrackedPid(k.gains, c, x), 0.0, PosInf);
    var pull, d, q := n.beta * (x.applied - c.lastRequested.value), k.gains.ki * e * dt, k.gains.kp * e;
    var candidate := s.integral + d;
    t := Terms(pull, d, q, candidate, n.beta * (q + candidate));
    SteppedIntegral(k.gains, s, -k.importLimit.value, -x.pCp, dt, candidate, q + candidate,
                    n.beta * (ClampOut(s, q + candidate).w - (q + candidate)));
  }

  lemma TermsInRange(
    g: Gains, dt: real, load: real, meter: real, pMin: real, pMax: real, n: Numbers,
    c: Ctl, applied: real, e: real, t: Terms)
    requires Windable(g, dt) && load >= 0.0 && pMin <= 0.0 <= pMax && pMin <= applied <= pMax && 0.0 <= e <= meter
    requires NumbersAgree(g, dt, load, meter, pMin, pMax, n) && NumbersRange(n)
    requires c.lastRequested.Some? && ImportKept(c, load, n) && TermsAgree(g, dt, c, applied, e, n, t)
    ensures 0.0 <= t.q <= n.qMax && t.candidate <= n.high
    ensures t.q + t.candidate < 0.0 ==> t.candidate - t.fed <= 0.0
    ensures -n.low <= if t.q + t.candidate >= 0.0 then t.candidate else t.candidate - t.fed
  {
    hide *;
    TermsDrive(g, dt, load, meter, pMin, pMax, n, c, applied, e, t);
    KeptWithin(c, load, n);
    TermsUpper(g, dt, load, meter, pMin, pMax, n, c, applied, e, t);
    TermsLower(g, dt, load, meter, pMin, pMax, n, c, applied, e, t);
  }

  lemma TermsDrive(
    g: Gains, dt: real, load: real, meter: real, pMin: real, pMax: real, n: Numbers,
    c: Ctl, applied: real, e: real, t: Terms)
    requires Windable(g, dt) && NumbersAgree(g, dt, load, meter, pMin, pMax, n) && 0.0 <= e <= meter
    requires c.lastRequested.Some? && TermsAgree(g, dt, c, applied, e, n, t)
    ensures 0.0 <= t.q <= n.qMax && 0.0 <= t.d <= n.dMax
  {
    hide Beta, TrackingTime, Drive;
    ImportTerms(g, e, dt, meter);
  }

  lemma KeptWithin(c: Ctl, load: real, n: Numbers)
    requires ImportKept(c, load, n) && c.lastRequested.Some?
    ensures c.pid.integral <= n.high && -n.low <= c.pid.integral <= c.lastRequested.value
    ensures c.lastRequested.value <= load + Max(0.0, c.pid.integral + n.qMax)
  {}

  lemma TermsUpper(
    g: Gains, dt: real, load: real, meter: real, pMin: real, pMax: real, n: Numbers,
    c: Ctl, applied: real, e: real, t: Terms)
    requires NumbersAgree(g, dt, load, meter, pMin, pMax, n) && NumbersRange(n)
    requires c.lastRequested.Some? && TermsAgree(g, dt, c, applied, e, n, t) && applied <= pMax
    requires c.pid.integral <= n.high && c.pid.integral <= c.lastRequested.value && t.q >= 0.0 && 0.0 <= t.d <= n.dMax
    ensures t.candidate <= n.high
    ensures t.q + t.candidate < 0.0 ==> t.candidate - t.fed <= 0.0
  {
    hide Beta, TrackingTime;
    OneSidedUpper(c.pid.integral, c.lastRequested.value, applied, pMax, n, t);
  }

  lemma TermsLower(
    g: Gains, dt: real, load: real, meter: real, pMin: real, pMax: real, n: Numbers,
    c: Ctl, applied: real, e: real, t: Terms)
    requires NumbersAgree(g, dt, load, meter, pMin, pMax, n) && NumbersRange(n)
    requires c.lastRequested.Some? && TermsAgree(g, dt, c, applied, e, n, t) && pMin <= applied && pMin <= 0.0 <= load
    requires -n.low <= c.pid.integral && c.lastRequested.value <= load + Max(0.0, c.pid.integral + n.qMax)
    requires 0.0 <= t.q <= n.qMax && t.d >= 0.0
    ensures -n.low <= if t.q + t.candidate >= 0.0 then t.candidate else t.candidate - t.fed
  {
    hide Beta, TrackingTime;
    OneSidedLower(c.pid.integral, c.lastRequested.value, applied, load - pMin, load, n, t);
  }

  lemma ImportTerms(g: Gains, e: real, dt: real, meter: real)
    requires g.ki > 0.0 && g.kp >= 0.0 && dt > 0.0 && 0.0 <= e <= meter
    ensures 0.0 <= g.kp * e <= g.kp * meter && 0.0 <= g.ki * e * dt <= g.ki * meter * dt
  {
    Nonneg(g.kp, e);
    Nonneg(g.kp, meter - e);
    Nonneg(g.ki, e);
    Nonneg(g.ki * e, dt);
    ScaledTwice(g.ki, dt, e, meter);
    Nonneg(g.ki, meter - e);
    Nonneg(g.ki * (meter - e), dt);
  }

  lemma ImportConclude(after: Ctl, floor: real, load: real, n: Numbers, t: Terms)
    requires after.pid.integral == if t.q + t.candidate < 0.0 then t.candidate - t.fed else t.candidate
    requires after.lastRequested == Some(floor + Max(0.0, t.q + t.candidate))
    requires 0.0 <= floor <= load && 0.0 <= t.q <= n.qMax && n.high >= 0.0 && t.candidate <= n.high
    requires t.q + t.candidate < 0.0 ==> t.candidate - t.fed <= 0.0
    requires -n.low <= if t.q + t.candidate >= 0.0 then t.candidate else t.candidate - t.fed
    ensures ImportKept(after, load, n)
  {}

  lemma OneSidedUpper(i: real, r: real, applied: real, pMax: real, n: Numbers, t: Terms)
    requires NumbersRange(n) && n.beta * n.high == n.beta * pMax + n.dMax
    requires 0.0 <= t.d <= n.dMax && t.q >= 0.0 && i <= r && i <= n.high && applied <= pMax
    requires t.pull == n.beta * (applied - r) && t.candidate == i + t.pull + t.d
    requires t.fed == n.beta * (t.q + t.candidate)
    ensures t.candidate <= n.high
    ensures t.q + t.candidate < 0.0 ==> t.candidate - t.fed <= 0.0
  {
    Nonneg(n.beta, (pMax - i) - (applied - r));
    Nonneg(1.0 - n.beta, n.high - i);
    if t.q + t.candidate < 0.0 { Nonneg(1.0 - n.beta, -(t.q + t.candidate)); }
  }

  lemma OneSidedLower(i: real, r: real, applied: real, gap: real, load: real, n: Numbers, t: Terms)
    requires NumbersRange(n) && n.low == (1.0 - n.beta) * gap + n.qMax && gap >= 0.0
    requires t.d >= 0.0 && 0.0 <= t.q <= n.qMax
    requires -n.low <= i && r <= load + Max(0.0, i + n.qMax) && applied >= load - gap
    requires t.pull == n.beta * (applied - r) && t.candidate == i + t.pull + t.d
    requires t.fed == n.beta * (t.q + t.candidate)
    ensures -n.low <= if t.q + t.candidate >= 0.0 then t.candidate else t.candidate - t.fed
  {
    if t.q + t.candidate >= 0.0 {
      LowerFree(n.beta, gap, n.qMax, n.low);
    } else if i + n.qMax <= 0.0 {
      PullAtLeast(n.beta, applied - r, gap, t.pull);
      LowerHeld(n.beta, gap, n.qMax, n.low, i, t.candidate, t.q, t.fed);
    } else {
      PullAtLeast(n.beta, applied - r, gap + (i + n.qMax), t.pull);
      LowerChased(n.beta, gap, n.qMax, n.low, i, t.candidate, t.q, t.fed);
    }
  }

  lemma PullAtLeast(beta: real, delta: real, depth: real, pull: real)
    requires beta >= 0.0 && delta >= -depth && pull == beta * delta
    ensures pull >= -(beta * depth)
  {
    Nonneg(beta, delta + depth);
  }

  lemma LowerFree(beta: real, gap: real, qMax: real, low: real)
    requires beta <= 1.0 && gap >= 0.0 && low == (1.0 - beta) * gap + qMax
    ensures low >= qMax
  {
    Nonneg(1.0 - beta, gap);
  }

  /** What feedback leaves of a sum that is not negative. */
  lemma FeedbackLeaves(beta: real, a: real, b: real, c: real, fedA: real, fedB: real, fedC: real)
    requires 0.0 <= beta <= 1.0 && fedA == beta * a && fedB == beta * b && fedC == beta * c && a + b + c >= 0.0
    ensures fedA + fedB + fedC <= a + b + c
  {
    Nonneg(1.0 - beta, a + b + c);
    SumScaled(beta, a, b, c);
  }

  lemma SumScaled(beta: real, a: real, b: real, c: real)
    ensures (1.0 - beta) * (a + b + c) == (a + b + c) - (beta * a + beta * b + beta * c)
  {}

  lemma FedSum(beta: real, q: real, candidate: real, fed: real)
    requires fed == beta * (q + candidate)
    ensures fed == beta * q + beta * candidate
  {}

  lemma Grows(beta: real, q: real, qMax: real)
    requires beta >= 0.0 && q <= qMax
    ensures beta * q <= beta * qMax
  {
    Nonneg(beta, qMax - q);
  }

  lemma GapLeft(beta: real, gap: real)
    ensures (1.0 - beta) * gap == gap - beta * gap
  {}

  /** The last request was the floor. */
  lemma LowerHeld(beta: real, gap: real, qMax: real, low: real, i: real, candidate: real, q: real, fed: real)
    requires 0.0 < beta <= 1.0 && gap >= 0.0 && low == (1.0 - beta) * gap + qMax
    requires -low <= i && candidate >= i - beta * gap && q <= qMax && fed == beta * (q + candidate)
    ensures candidate - fed >= -low
  {
    GapLeft(beta, gap);
    FedSum(beta, q, candidate, fed);
    Grows(beta, q, qMax);
    FeedbackLeaves(beta, candidate, gap, qMax, beta * candidate, beta * gap, beta * qMax);
  }

  lemma Spread(beta: real, gap: real, i: real, qMax: real)
    ensures beta * (gap + (i + qMax)) == beta * gap + beta * i + beta * qMax
  {}

  /** The last request followed the integral. */
  lemma LowerChased(beta: real, gap: real, qMax: real, low: real, i: real, candidate: real, q: real, fed: real)
    requires 0.0 < beta <= 1.0 && gap >= 0.0 && low == (1.0 - beta) * gap + qMax
    requires i > -qMax && candidate >= i - beta * (gap + (i + qMax)) && q <= qMax && fed == beta * (q + candidate)
    ensures candidate - fed >= -low
  {
    GapLeft(beta, gap);
    FedSum(beta, q, candidate, fed);
    Grows(beta, q, qMax);
    Spread(beta, gap, i, qMax);
    FeedbackLeaves(beta, i, qMax, 0.0, beta * i, beta * qMax, 0.0);
    FeedbackLeaves(beta, candidate, qMax, beta * gap, beta * candidate, beta * qMax, beta * (beta * gap));
    FeedbackLeaves(beta, gap, 0.0, 0.0, beta * gap, 0.0, 0.0);
    Nonneg(beta, gap);
    FeedbackLeaves(beta, gap - beta * gap, 0.0, 0.0, beta * (gap - beta * gap), 0.0, 0.0);
    Minus(beta, gap, beta * gap);
  }

  lemma Minus(beta: real, a: real, b: real)
    ensures beta * (a - b) == beta * a - beta * b
  {}
}
