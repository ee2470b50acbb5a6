/** The controllers that turn measurements into standing claims
    (src/pyems/controllers/grid_export_limit.py, setpoint_headroom.py, generation_gate.py). */
module Controllers {
  import opened Num
  import opened Requests
  import opened Board
  import opened Channels

  /** A claim with an upper bound and nothing else. */
  function CapClaim(name: string, priority: int, cap: real): Request {
    Request(name, priority, NegInf, Fin(cap), None, None)
  }

  function PinClaim(name: string, priority: int, w: real): Request {
    Request(name, priority, Fin(w), Fin(w), Some(Fin(w)), None)
  }

  /** A cap covers all powers up to it, a pin its own only, and both stand until they are replaced or
      withdrawn. */
  lemma ClaimsStand(name: string, priority: int, w: real, p: real, at: real, now: real)
    ensures CapClaim(name, priority, w).Covers(p) <==> p <= w
    ensures PinClaim(name, priority, w).Covers(p) <==> p == w
    ensures !Claim(CapClaim(name, priority, w), at).Expired(now) && !Claim(PinClaim(name, priority, w), at).Expired(now)
  {}

  // --- export cap -------------------------------------------------------------------

  /** The unit power at which the connection point would export exactly the limit. */
  function ExportCap(pUnit: real, pCp: real, limit: real): real {
    Max(0.0, pUnit + pCp + limit)
  }

  class GridExportLimitController {
    const name: string
    const priority: int
    const limit: real
    const cpChannel: string
    const unitChannel: string
    const setpointChannel: string
    const deadband: real
    var curtailing: bool

    constructor (name: string, priority: int, limit: real, cpChannel: string, unitChannel: string,
                 setpointChannel: string, deadband: real)
      requires limit >= 0.0
      ensures this.name == name && this.priority == priority && this.limit == limit
      ensures this.cpChannel == cpChannel && this.unitChannel == unitChannel
      ensures this.setpointChannel == setpointChannel && this.deadband == deadband && !curtailing
    {
      this.name, this.priority, this.limit := name, priority, limit;
      this.cpChannel, this.unitChannel := cpChannel, unitChannel;
      this.setpointChannel, this.deadband := setpointChannel, deadband;
      curtailing := false;
    }

    method Execute(state: SystemState, board: RequestBoard) returns (ok: bool)
      requires board.Valid() && state.HasReal(cpChannel) && state.HasReal(unitChannel)
      modifies this, board`claims
      ensures board.Valid() && ok == (setpointChannel in old(board.claims))
      ensures var pUnit, pCp := state.Get(unitChannel).w, state.Get(cpChannel).w;
              var cap := ExportCap(pUnit, pCp, limit);
              && board.claims == Posted(old(board.claims), setpointChannel,
                                        Claim(CapClaim(name, priority, cap), board.now))
              && (ok ==> curtailing == (cap < pUnit - deadband))
    {
      var pCp, pUnit := state.Get(cpChannel).w, state.Get(unitChannel).w;
      var cap := Max(0.0, pUnit + pCp + limit);
      ok := board.Post(setpointChannel, CapClaim(name, priority, cap), None);
      if ok { curtailing := cap < pUnit - deadband; }
    }
  }

  // --- available-power headroom --------------------------------------------------------

  function HeadroomCap(pUnit: real, headroom: real, percent: real): real {
    var base := Max(0.0, pUnit);
    base + Max(headroom, base * percent / 100.0)
  }

  class SetpointHeadroomLimiter {
    const name: string
    const priority: int
    const headroom: real
    const percent: real
    const unitChannel: string
    const setpointChannel: string

    constructor (name: string, priority: int, headroom: real, percent: real, unitChannel: string, setpointChannel: string)
      requires headroom > 0.0 && percent >= 0.0 && priority != 0
      ensures this.name == name && this.priority == priority && this.headroom == headroom && this.percent == percent
      ensures this.unitChannel == unitChannel && this.setpointChannel == setpointChannel
    {
      this.name, this.priority, this.headroom, this.percent := name, priority, headroom, percent;
      this.unitChannel, this.setpointChannel := unitChannel, setpointChannel;
    }

    method Execute(state: SystemState, board: RequestBoard) returns (ok: bool)
      requires board.Valid() && state.HasReal(unitChannel)
      modifies board`claims
      ensures board.Valid() && ok == (setpointChannel in old(board.claims))
      ensures board.claims == Posted(old(board.claims), setpointChannel,
                Claim(CapClaim(name, priority, HeadroomCap(state.Get(unitChannel).w, headroom, percent)), board.now))
    {
      var pUnit := state.Get(unitChannel).w;
      var base := Max(0.0, pUnit);
      var room := Max(headroom, base * percent / 100.0);
      ok := board.Post(setpointChannel, CapClaim(name, priority, base + room), None);
    }
  }

  // --- generation gate ---------------------------------------------------------------------

  class GenerationGateController {
    const name: string
    const priority: int
    const setpointChannel: string
    const floor: real
    var pinning: bool

    constructor (name: string, priority: int, setpointChannel: string, floor: real)
      requires priority != 0
      ensures this.name == name && this.priority == priority
      ensures this.setpointChannel == setpointChannel && this.floor == floor && !pinning
    {
      this.name, this.priority, this.setpointChannel, this.floor := name, priority, setpointChannel, floor;
      pinning := false;
    }

    /** The pin stands exactly while generation is not allowed, and the active flag says so. */
    method Execute(state: SystemState, board: RequestBoard) returns (ok: bool)
      requires board.Valid() && state.Has(GENERATION_ALLOWED)
      modifies this, state, board`claims
      ensures board.Valid()
      ensures ok == (setpointChannel in old(board.claims) && Commandable(old(state.tags), GENERATION_GATE_ACTIVE))
      ensures var allowed := Le(Fin(0.5), old(state.Get(GENERATION_ALLOWED)));
              && board.claims == (if allowed then Withdrawn(old(board.claims), setpointChannel, name)
                                  else Posted(old(board.claims), setpointChannel,
                                              Claim(PinClaim(name, priority, floor), board.now)))
              && state.tags == (if setpointChannel in old(board.claims)
                                then Commanded(old(state.tags), GENERATION_GATE_ACTIVE, Fin(if allowed then 0.0 else 1.0))
                                else old(state.tags))
              && (ok ==> pinning == !allowed)
    {
      var allowed := Le(Fin(0.5), state.Get(GENERATION_ALLOWED));
      if allowed {
        ok := board.Withdraw(setpointChannel, name);
        if ok { ok := state.Set(GENERATION_GATE_ACTIVE, Fin(0.0)); }
        if ok { pinning := false; }
      } else {
        ok := board.Post(setpointChannel, PinClaim(name, priority, floor), None);
        if ok { ok := state.Set(GENERATION_GATE_ACTIVE, Fin(1.0)); }
        if ok { pinning := true; }
      }
    }
  }
}
