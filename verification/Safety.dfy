/** The priority-0 interlock (src/pyems/controllers/safety.py). */
module Safety {
  import opened Num
  import opened Requests
  import opened Board
  import opened Journal
  import opened Channels
  import opened Controllers

  const SAFETY := "safety"

  const TRIP := Ident("safety", "safety.trip")

  datatype Guards = Guards(
    maxAge: real,
    safeW: real,
    guarded: seq<string>,
    watched: seq<string>,
    maxFrozen: Option<real>,
    maxWriteAge: Option<real>,
    ageLimits: map<string, real>)

  /** A watched tag's value and since when it has had it. */
  datatype Change = Change(value: Ext, at: real)

  type Memory = map<string, Change>

  datatype Interlock = Interlock(memory: Memory, tripped: bool)

  // --- frozen measurements -----------------------------------------------------------

  datatype Watch = Watch(memory: Memory, frozen: seq<string>)

  function Looked(w: Watch, ch: string, value: Ext, now: real, limit: real): Watch {
    if ch !in w.memory || value != w.memory[ch].value then w.(memory := w.memory[ch := Change(value, now)])
    else if now - w.memory[ch].at > limit then w.(frozen := w.frozen + [ch])
    else w
  }

  predicate AllIn(names: seq<string>, tags: Tags) {
    forall i :: 0 <= i < |names| ==> names[i] in tags
  }

  function LookedAll(memory: Memory, watched: seq<string>, tags: Tags, now: real, limit: real): Watch
    requires AllIn(watched, tags)
  {
    if watched == [] then Watch(memory, [])
    else
      var ch := watched[|watched| - 1];
      Looked(LookedAll(memory, watched[..|watched| - 1], tags, now, limit), ch, tags[ch].value, now, limit)
  }

  function Inspected(g: Guards, memory: Memory, tags: Tags, now: real): Watch
    requires AllIn(g.watched, tags)
  {
    if g.maxFrozen.None? then Watch(memory, []) else LookedAll(memory, g.watched, tags, now, g.maxFrozen.value)
  }

  // --- the verdict and its effects ---------------------------------------------------

  predicate Readable(g: Guards, tags: Tags) {
    && AllIn(g.watched, tags) && COMMS_AGE in tags && WRITE_AGE in tags
    && (forall ch :: ch in g.ageLimits ==> ch in tags)
  }

  predicate Faulty(g: Guards, tags: Tags, frozen: seq<string>)
    requires Readable(g, tags)
  {
    || Lt(Fin(g.maxAge), tags[COMMS_AGE].value)
    || (exists ch :: ch in g.ageLimits && Lt(Fin(g.ageLimits[ch]), tags[ch].value))
    || (g.maxWriteAge.Some? && Lt(Fin(g.maxWriteAge.value), tags[WRITE_AGE].value))
    || frozen != []
  }

  function PostedAll(claims: map<string, Claims>, channels: seq<string>, claim: Claim): map<string, Claims> {
    if channels == [] then claims
    else Posted(PostedAll(claims, channels[..|channels| - 1], claim), channels[|channels| - 1], claim)
  }

  function WithdrawnAll(claims: map<string, Claims>, channels: seq<string>, requester: string): map<string, Claims> {
    if channels == [] then claims
    else Withdrawn(WithdrawnAll(claims, channels[..|channels| - 1], requester), channels[|channels| - 1], requester)
  }

  function SafePin(g: Guards): Request {
    PinClaim(SAFETY, 0, g.safeW)
  }

  function SafetyVerdict(g: Guards, lock: Interlock, tags: Tags, now: real): Interlock
    requires Readable(g, tags)
  {
    var w := Inspected(g, lock.memory, tags, now);
    Interlock(w.memory, Faulty(g, tags, w.frozen))
  }

  function SafetyClaims(g: Guards, claims: map<string, Claims>, tripped: bool, now: real): map<string, Claims> {
    if tripped then PostedAll(claims, g.guarded, Claim(SafePin(g), now)) else WithdrawnAll(claims, g.guarded, SAFETY)
  }

  function ModeWord(tripped: bool): Ext {
    Fin(if tripped then 1.0 else 0.0)
  }

  lemma {:induction false} PostedAllAt(claims: map<string, Claims>, channels: seq<string>, claim: Claim)
    ensures PostedAll(claims, channels, claim).Keys == claims.Keys
    ensures forall ch :: ch in claims ==>
              PostedAll(claims, channels, claim)[ch] ==
              if ch in channels then claims[ch][claim.request.requester := claim] else claims[ch]
  {
    if channels != [] {
      PostedAllAt(claims, channels[..|channels| - 1], claim);
      assert channels == channels[..|channels| - 1] + [channels[|channels| - 1]];
    }
  }

  lemma {:induction false} WithdrawnAllAt(claims: map<string, Claims>, channels: seq<string>, requester: string)
    ensures WithdrawnAll(claims, channels, requester).Keys == claims.Keys
    ensures forall ch :: ch in claims ==>
              WithdrawnAll(claims, channels, requester)[ch] ==
              if ch in channels then claims[ch] - {requester} else claims[ch]
  {
    if channels != [] {
      WithdrawnAllAt(claims, channels[..|channels| - 1], requester);
      assert channels == channels[..|channels| - 1] + [channels[|channels| - 1]];
    }
  }

  class SafetyController {
    const g: Guards
    const journal: EventJournal?
    var lastChange: Memory
    var tripped: bool

    constructor (g: Guards, journal: EventJournal?)
      ensures this.g == g && this.journal == journal
      ensures View() == Interlock(map[], false)
    {
      this.g, this.journal := g, journal;
      lastChange, tripped := map[], false;
    }

    function View(): Interlock
      reads this
    {
      Interlock(lastChange, tripped)
    }

    ghost function Journals(): set<object>
    {
      if journal == null then {} else {journal}
    }

    /** The trip alarm stands exactly while tripped. */
    ghost predicate TripAgrees()
      reads this, journal
    {
      journal != null ==> journal.Valid() && (TRIP in journal.Latched() <==> tripped)
    }

    twostate predicate OthersKept()
      reads journal
    {
      journal != null ==>
        forall id :: id != TRIP ==> (id in journal.Latched() <==> id in old(journal.Latched()))
    }

    method FrozenMeasurements(state: SystemState, now: real) returns (frozen: seq<string>)
      requires AllIn(g.watched, state.tags)
      modifies this`lastChange
      ensures Watch(lastChange, frozen) == Inspected(g, old(lastChange), state.tags, now)
    {
      frozen := [];
      if g.maxFrozen.None? { return; }
      for i := 0 to |g.watched|
        invariant Watch(lastChange, frozen) ==
                  LookedAll(old(lastChange), g.watched[..i], state.tags, now, g.maxFrozen.value)
      {
        assert g.watched[..i + 1][..i] == g.watched[..i];
        var ch := g.watched[i];
        var value := state.Get(ch);
        if ch !in lastChange || value != lastChange[ch].value {
          lastChange := lastChange[ch := Change(value, now)];
        } else if now - lastChange[ch].at > g.maxFrozen.value {
          frozen := frozen + [ch];
        }
      }
      assert g.watched[..|g.watched|] == g.watched;
    }

    method AnyTooOld(state: SystemState) returns (stale: bool)
      requires forall ch :: ch in g.ageLimits ==> ch in state.tags
      ensures stale <==> exists ch :: ch in g.ageLimits && Lt(Fin(g.ageLimits[ch]), state.tags[ch].value)
    {
      var todo := g.ageLimits.Keys;
      stale := false;
      while todo != {}
        invariant todo <= g.ageLimits.Keys
        invariant stale <==> exists ch :: ch in g.ageLimits && ch !in todo && Lt(Fin(g.ageLimits[ch]), state.tags[ch].value)
      {
        var ch :| ch in todo;
        if Lt(Fin(g.ageLimits[ch]), state.Get(ch)) { stale := true; }
        todo := todo - {ch};
      }
    }

    method Assert(board: RequestBoard)
      requires board.Valid() && forall i :: 0 <= i < |g.guarded| ==> g.guarded[i] in board.claims
      modifies board`claims
      ensures board.Valid()
      ensures board.claims == PostedAll(old(board.claims), g.guarded, Claim(SafePin(g), board.now))
    {
      for i := 0 to |g.guarded|
        invariant board.Valid() && board.claims.Keys == old(board.claims.Keys)
        invariant board.claims == PostedAll(old(board.claims), g.guarded[..i], Claim(SafePin(g), board.now))
      {
        assert g.guarded[..i + 1][..i] == g.guarded[..i];
        var _ := board.Post(g.guarded[i], PinClaim(SAFETY, 0, g.safeW), None);
      }
      assert g.guarded[..|g.guarded|] == g.guarded;
    }

    method Release(board: RequestBoard)
      requires board.Valid() && forall i :: 0 <= i < |g.guarded| ==> g.guarded[i] in board.claims
      modifies board`claims
      ensures board.Valid()
      ensures board.claims == WithdrawnAll(old(board.claims), g.guarded, SAFETY)
    {
      for i := 0 to |g.guarded|
        invariant board.Valid() && board.claims.Keys == old(board.claims.Keys)
        invariant board.claims == WithdrawnAll(old(board.claims), g.guarded[..i], SAFETY)
      {
        assert g.guarded[..i + 1][..i] == g.guarded[..i];
        var _ := board.Withdraw(g.guarded[i], SAFETY);
      }
      assert g.guarded[..|g.guarded|] == g.guarded;
    }

    method Execute(state: SystemState, board: RequestBoard)
      requires board.Valid() && Readable(g, state.tags) && Commandable(state.tags, SAFE_MODE) && TripAgrees()
      requires forall i :: 0 <= i < |g.guarded| ==> g.guarded[i] in board.claims
      modifies this, state, board`claims, Journals()
      ensures board.Valid() && TripAgrees() && OthersKept()
      ensures View() == SafetyVerdict(g, old(View()), old(state.tags), board.now)
      ensures board.claims == SafetyClaims(g, old(board.claims), tripped, board.now)
      ensures state.tags == Commanded(old(state.tags), SAFE_MODE, ModeWord(tripped))
    {
      var frozen := FrozenMeasurements(state, board.now);
      var tooOld := AnyTooOld(state);
      var faults :=
        || Lt(Fin(g.maxAge), state.Get(COMMS_AGE))
        || tooOld
        || (g.maxWriteAge.Some? && Lt(Fin(g.maxWriteAge.value), state.Get(WRITE_AGE)))
        || frozen != [];
      if faults {
        Assert(board);
        var _ := state.Set(SAFE_MODE, Fin(1.0));
        if !tripped {
          if journal != null { var _ := journal.RaiseAlarm(TRIP, "tripped", Alarming, board.now); }
          tripped := true;
        }
      } else {
        Release(board);
        var _ := state.Set(SAFE_MODE, Fin(0.0));
        if tripped {
          if journal != null { var _ := journal.Clear(TRIP, "released"); }
          tripped := false;
        }
      }
    }
  }

  // --- the frozen window against its trace ---------------------------------------------

  datatype Look = Look(now: real, tags: Tags)

  ghost predicate InTime(looks: seq<Look>) {
    forall i, j :: 0 <= i < j < |looks| ==> looks[i].now <= looks[j].now
  }

  ghost predicate AllSee(looks: seq<Look>, watched: seq<string>) {
    forall i :: 0 <= i < |looks| ==> AllIn(watched, looks[i].tags)
  }

  function MemoryAfter(watched: seq<string>, limit: real, looks: seq<Look>): Memory
    requires AllSee(looks, watched)
  {
    if looks == [] then map[]
    else
      var look := looks[|looks| - 1];
      LookedAll(MemoryAfter(watched, limit, looks[..|looks| - 1]), watched, look.tags, look.now, limit).memory
  }

  /** From execution i on, the tag has held one value. */
  ghost predicate HeldFrom(looks: seq<Look>, ch: string, i: nat) {
    && i < |looks| && (forall j :: 0 <= j < |looks| ==> ch in looks[j].tags)
    && forall j :: i <= j < |looks| ==> looks[j].tags[ch].value == looks[i].tags[ch].value
  }

  lemma {:induction false} LookedOne(memory: Memory, watched: seq<string>, tags: Tags, now: real, limit: real, ch: string)
    requires AllIn(watched, tags) && limit >= 0.0
    ensures var w := LookedAll(memory, watched, tags, now, limit);
            if ch !in watched then (ch in w.memory <==> ch in memory) && (ch in memory ==> w.memory[ch] == memory[ch]) && ch !in w.frozen
            else if ch in memory && memory[ch].value == tags[ch].value then
              ch in w.memory && w.memory[ch] == memory[ch] && (ch in w.frozen <==> now - memory[ch].at > limit)
            else
              ch in w.memory && w.memory[ch] == Change(tags[ch].value, now) && ch !in w.frozen
  {
    if watched != [] {
      LookedOne(memory, watched[..|watched| - 1], tags, now, limit, ch);
      assert watched == watched[..|watched| - 1] + [watched[|watched| - 1]];
    }
  }

  lemma ChangeEndsHold(looks: seq<Look>, ch: string, i: nat, k: nat)
    requires k + 1 < |looks| && ch in looks[k].tags && ch in looks[k + 1].tags
    requires looks[k].tags[ch].value != looks[k + 1].tags[ch].value
    ensures HeldFrom(looks, ch, i) ==> k < i
  {}

  /** What is remembered of a watched tag is its value and the time of the execution that first saw it. */
  lemma {:induction false} RemembersStart(watched: seq<string>, limit: real, looks: seq<Look>, ch: string)
    returns (start: nat)
    requires AllSee(looks, watched) && ch in watched && limit >= 0.0 && looks != []
    ensures HeldFrom(looks, ch, start) && forall i: nat :: HeldFrom(looks, ch, i) ==> start <= i
    ensures var memory := MemoryAfter(watched, limit, looks);
            ch in memory && memory[ch] == Change(looks[start].tags[ch].value, looks[start].now)
  {
    var init, look := looks[..|looks| - 1], looks[|looks| - 1];
    LookedOne(MemoryAfter(watched, limit, init), watched, look.tags, look.now, limit, ch);
    if init == [] {
      start := 0;
    } else {
      var before := RemembersStart(watched, limit, init, ch);
      assert init[|init| - 1].tags[ch].value == init[before].tags[ch].value;
      if look.tags[ch].value == init[before].tags[ch].value {
        start := before;
        forall i: nat | HeldFrom(looks, ch, i) ensures before <= i {
          assert i < |init| ==> HeldFrom(init, ch, i);
        }
      } else {
        start := |init|;
        forall i: nat | HeldFrom(looks, ch, i) ensures start <= i {
          ChangeEndsHold(looks, ch, i, |init| - 1);
        }
      }
    }
  }

  /** A tag is reported frozen exactly if it has held one value since an execution more
      than the limit ago. */
  lemma FrozenIffHeldTooLong(g: Guards, looks: seq<Look>, ch: string)
    requires g.maxFrozen.Some? && g.maxFrozen.value >= 0.0
    requires AllSee(looks, g.watched) && InTime(looks) && looks != []
    ensures var limit, last := g.maxFrozen.value, looks[|looks| - 1];
            var memory := MemoryAfter(g.watched, limit, looks[..|looks| - 1]);
            ch in Inspected(g, memory, last.tags, last.now).frozen <==>
            ch in g.watched && exists i: nat :: HeldFrom(looks, ch, i) && last.now - looks[i].now > limit
  {
    var limit, init, last := g.maxFrozen.value, looks[..|looks| - 1], looks[|looks| - 1];
    LookedOne(MemoryAfter(g.watched, limit, init), g.watched, last.tags, last.now, limit, ch);
    if ch in g.watched {
      var start := RemembersStart(g.watched, limit, looks, ch);
      assert HeldFrom(looks, ch, start);
      forall i: nat | HeldFrom(looks, ch, i) ensures looks[start].now <= looks[i].now <= last.now {}
      if init != [] {
        var before := RemembersStart(g.watched, limit, init, ch);
        assert init[|init| - 1].tags[ch].value == init[before].tags[ch].value;
      }
    }
  }
}
