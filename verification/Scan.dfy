/** One scan cycle: read, interlock, contained controllers, arbitrate, publish
    (src/pyems/scheduler.py). */
module Scan {
  import opened Num
  import opened Names
  import opened Requests
  import opened Board
  import opened Channels
  import opened Arbitration
  import opened Allocator
  import opened Safety
  import opened Setpoints

  /** What a normal controller can do to the rest of the system. Whatever it computes, and
      wherever it raises, it leaves behind the effects up to there. */
  datatype Effect =
    | PostClaim(channel: string, request: Request)
    | DropClaim(channel: string, requester: string)
    | SetTag(name: string, value: Ext)
    | Raise

  datatype Runner = Guardian | Normal(id: nat)

  datatype TaskSpec = TaskSpec(name: string, interval: real, priority: int, controllers: seq<Runner>)

  /** writable names the setpoints that the driver publishes. */
  datatype Plan = Plan(guards: Guards, cfgs: seq<Config>, cycle: real, tasks: seq<TaskSpec>, writable: set<string>)

  datatype World = World(
    tags: Tags,
    claims: map<string, Claims>,
    lock: Interlock,
    lasts: seq<Option<real>>,
    nextRuns: seq<real>,
    failing: set<nat>,
    published: map<string, Ext>)

  /** What a cycle meets up to arbitration: the time, the values read, what each normal controller
      will do, and what the interlock finds on the tags when it runs. The bus worker may share the
      channel objects with the cycle, and put its own values on them at any time. */
  datatype Turn = Turn(
    now: real,
    inputs: map<string, Ext>,
    scripts: map<nat, seq<Effect>>,
    seen: map<string, Ext>)

  /** landed is what publication finds in place of what arbitration commanded. */
  datatype Cycle = Cycle(turn: Turn, landed: map<string, Ext>)

  // --- the stages of a cycle --------------------------------------------------------------

  function ObservedAll(tags: Tags, inputs: map<string, Ext>): (after: Tags)
    ensures SameChannels(tags, after)
  {
    map name | name in tags :: if name in inputs then tags[name].(value := inputs[name]) else tags[name]
  }

  datatype Outcome = Outcome(tags: Tags, claims: map<string, Claims>, ok: bool)

  function Acted(tags: Tags, claims: map<string, Claims>, e: Effect, now: real): (o: Outcome)
    ensures SameChannels(tags, o.tags) && o.claims.Keys == claims.Keys && (AllKeyed(claims) ==> AllKeyed(o.claims))
  {
    match e
    case PostClaim(ch, r) => Outcome(tags, Posted(claims, ch, Claim(r, now)), ch in claims)
    case DropClaim(ch, requester) => Outcome(tags, Withdrawn(claims, ch, requester), ch in claims)
    case SetTag(name, value) => Outcome(Commanded(tags, name, value), claims, Commandable(tags, name))
    case Raise => Outcome(tags, claims, false)
  }

  /** A controller runs up to its first error. */
  function Played(tags: Tags, claims: map<string, Claims>, script: seq<Effect>, now: real): (o: Outcome)
    ensures SameChannels(tags, o.tags) && o.claims.Keys == claims.Keys && (AllKeyed(claims) ==> AllKeyed(o.claims))
  {
    if script == [] then Outcome(tags, claims, true)
    else
      var o := Acted(tags, claims, script[0], now);
      if o.ok then Played(o.tags, o.claims, script[1..], now) else o
  }

  /** The tags, claims and counts that the configuration promises are there. */
  ghost predicate Equipped(plan: Plan, w: World) {
    && Readable(plan.guards, w.tags) && Commandable(w.tags, SAFE_MODE)
    && Configured(plan.cfgs, w.claims)
    && (forall ch :: ch in plan.guards.guarded ==> ch in w.claims)
    && |w.lasts| == |plan.cfgs| && |w.nextRuns| == |plan.tasks|
    && plan.writable <= w.tags.Keys
  }

  ghost predicate SameShape(w: World, after: World) {
    && SameChannels(w.tags, after.tags) && w.claims.Keys == after.claims.Keys && AllKeyed(after.claims)
    && |w.lasts| == |after.lasts| && |w.nextRuns| == |after.nextRuns|
  }

  function ScriptOf(c: Turn, id: nat): seq<Effect> {
    if id in c.scripts then c.scripts[id] else []
  }

  function Guarded(plan: Plan, w: World, now: real): (after: World)
    requires Equipped(plan, w)
    ensures SameShape(w, after) && Equipped(plan, after)
  {
    var lock := SafetyVerdict(plan.guards, w.lock, w.tags, now);
    var claims := SafetyClaims(plan.guards, w.claims, lock.tripped, now);
    SafetyClaimsShape(plan.guards, w.claims, lock.tripped, now);
    w.(lock := lock, claims := claims, tags := Commanded(w.tags, SAFE_MODE, ModeWord(lock.tripped)))
  }

  lemma SafetyClaimsShape(g: Guards, claims: map<string, Claims>, tripped: bool, now: real)
    requires AllKeyed(claims)
    ensures SafetyClaims(g, claims, tripped, now).Keys == claims.Keys && AllKeyed(SafetyClaims(g, claims, tripped, now))
  {
    PostedAllAt(claims, g.guarded, Claim(SafePin(g), now));
    WithdrawnAllAt(claims, g.guarded, SAFETY);
  }

  function Contained(plan: Plan, w: World, id: nat, c: Turn): (after: World)
    requires Equipped(plan, w)
    ensures SameShape(w, after) && Equipped(plan, after)
  {
    var o := Played(w.tags, w.claims, ScriptOf(c, id), c.now);
    w.(tags := o.tags, claims := o.claims, failing := if o.ok then w.failing - {id} else w.failing + {id})
  }

  function Ran(plan: Plan, w: World, r: Runner, c: Turn): (after: World)
    requires Equipped(plan, w)
    ensures SameShape(w, after) && Equipped(plan, after)
  {
    match r
    case Guardian => Guarded(plan, w.(tags := ObservedAll(w.tags, c.seen)), c.now)
    case Normal(id) => Contained(plan, w, id, c)
  }

  /** The first n controllers of a task, in order. */
  function RanFirst(plan: Plan, w: World, controllers: seq<Runner>, c: Turn, n: nat): (after: World)
    requires Equipped(plan, w) && n <= |controllers|
    ensures SameShape(w, after) && Equipped(plan, after)
  {
    if n == 0 then w else Ran(plan, RanFirst(plan, w, controllers, c, n - 1), controllers[n - 1], c)
  }

  function TaskRan(plan: Plan, w: World, i: nat, c: Turn): (after: World)
    requires Equipped(plan, w) && i < |plan.tasks|
    ensures SameShape(w, after) && Equipped(plan, after)
  {
    if c.now >= w.nextRuns[i] then
      var task := plan.tasks[i];
      var after := RanFirst(plan, w, task.controllers, c, |task.controllers|);
      after.(nextRuns := after.nextRuns[i := c.now + task.interval])
    else w
  }

  function TasksRan(plan: Plan, w: World, c: Turn, n: nat): (after: World)
    requires Equipped(plan, w) && n <= |plan.tasks|
    ensures SameShape(w, after) && Equipped(plan, after)
  {
    if n == 0 then w else TaskRan(plan, TasksRan(plan, w, c, n - 1), n - 1, c)
  }

  ghost function Arbitrated(plan: Plan, w: World, now: real): (after: World)
    requires Equipped(plan, w) && DistinctChannels(plan.cfgs)
    ensures SameShape(w, after) && Equipped(plan, after)
  {
    var values := NextAll(plan.cfgs, plan.cycle, w.claims, now, w.lasts);
    CommandedFirstAt(w.tags, plan.cfgs, values, |values|);
    w.(lasts := seq(|values|, i requires 0 <= i < |values| => Some(values[i])),
       tags := CommandedFirst(w.tags, plan.cfgs, values, |values|),
       claims := Purged(plan.cfgs, w.claims, now, |values|))
  }

  function Readout(tags: Tags, names: set<string>): (values: map<string, Ext>) {
    map n | n in names && n in tags :: tags[n].value
  }

  /** The live setpoints, whatever put them there, go to the driver's cache. */
  function Output(plan: Plan, w: World, landed: map<string, Ext>): (after: World)
    requires Equipped(plan, w)
    ensures SameShape(w, after) && Equipped(plan, after)
  {
    var tags := ObservedAll(w.tags, landed);
    w.(tags := tags, published := w.published + Readout(tags, plan.writable))
  }

  /** All of a cycle but its output. */
  ghost function Decided(plan: Plan, w: World, c: Turn): (after: World)
    requires Equipped(plan, w) && DistinctChannels(plan.cfgs)
    ensures SameShape(w, after) && Equipped(plan, after)
  {
    var read := w.(tags := ObservedAll(w.tags, c.inputs));
    Arbitrated(plan, TasksRan(plan, read, c, |plan.tasks|), c.now)
  }

  ghost function Stepped(plan: Plan, w: World, c: Cycle): (after: World)
    requires Equipped(plan, w) && DistinctChannels(plan.cfgs)
    ensures SameShape(w, after) && Equipped(plan, after)
  {
    Output(plan, Decided(plan, w, c.turn), c.landed)
  }

  // --- the interlock over whole runs --------------------------------------------------------

  lemma OutputDecides(plan: Plan, w: World, c: Cycle)
    requires Equipped(plan, w) && DistinctChannels(plan.cfgs)
    ensures Stepped(plan, w, c).lock == Decided(plan, w, c.turn).lock
  {
    hide Decided, Equipped;
  }

  /** On one guarded channel: the safety claim stands exactly while tripped, and it alone has
      priority 0. */
  ghost predicate GuardedBy(g: Guards, claims: Claims, tripped: bool) {
    && (SAFETY in claims <==> tripped)
    && (SAFETY in claims ==> claims[SAFETY].request == SafePin(g))
    && forall k :: k in claims && k != SAFETY ==> claims[k].request.priority > 0
  }

  /** The status word, the trip and the claims all say the same. */
  ghost predicate Interlocked(plan: Plan, w: World)
    requires Equipped(plan, w)
  {
    && w.tags[SAFE_MODE].value == Fin(if w.lock.tripped then 1.0 else 0.0)
    && forall ch :: ch in plan.guards.guarded ==> GuardedBy(plan.guards, w.claims[ch], w.lock.tripped)
  }

  /** Every guarded setpoint is the safe value, live and as published, unless the worker landed
      another value on it; and then it is that value. */
  ghost predicate Pinned(plan: Plan, w: World, landed: map<string, Ext>)
    requires Equipped(plan, w)
  {
    forall ch :: ch in plan.guards.guarded ==>
      && ch in w.tags && w.tags[ch].value == (if ch in landed then landed[ch] else Fin(plan.guards.safeW))
      && (ch in plan.writable ==> ch in w.published && w.published[ch] == w.tags[ch].value)
  }

  predicate Within(c: Channel, v: Ext) {
    Le(c.min, v) && Le(v, c.max)
  }

  /** One guarded channel is an allocation channel whose envelope, and whose own bounds, hold
      the safe value. */
  ghost predicate Reaches(plan: Plan, tags: Tags, ch: string) {
    && Commandable(tags, ch) && Within(tags[ch], Fin(plan.guards.safeW))
    && Allocated(plan.cfgs, ch, plan.guards.safeW)
  }

  /** What validate_safety_allocation demands of a guarded channel. */
  ghost predicate Allocated(cfgs: seq<Config>, ch: string, safeW: real) {
    exists i :: 0 <= i < |cfgs| && cfgs[i].channel == ch && Inside(Envelope(cfgs[i]), safeW)
  }

  /** A trip can land: what validate_safety_allocation demands, and the same of the channel
      bounds, which clamp once more. */
  ghost predicate SafetyLands(plan: Plan, tags: Tags) {
    && DistinctChannels(plan.cfgs)
    && (forall ch :: ch in plan.guards.guarded ==> Reaches(plan, tags, ch))
    && SAFE_MODE in tags && Within(tags[SAFE_MODE], Fin(0.0)) && Within(tags[SAFE_MODE], Fin(1.0))
    && forall i :: 0 <= i < |plan.cfgs| ==> plan.cfgs[i].channel != SAFE_MODE
  }

  lemma LandsDistinct(plan: Plan, tags: Tags)
    requires SafetyLands(plan, tags)
    ensures DistinctChannels(plan.cfgs)
  {}

  /** A normal controller may post, withdraw and write what it likes, except in the
      interlock's own name, at its priority, or to its status word. */
  predicate Harmless(e: Effect) {
    match e
    case PostClaim(_, r) => r.requester != SAFETY && r.priority > 0
    case DropClaim(_, requester) => requester != SAFETY
    case SetTag(name, _) => name != SAFE_MODE
    case Raise => true
  }

  /** The bus worker lands on device channels only. */
  predicate Foreign(values: map<string, Ext>) {
    SAFE_MODE !in values && COMMS_AGE !in values
  }

  ghost predicate HarmlessAll(scripts: map<nat, seq<Effect>>) {
    forall id, i :: id in scripts && 0 <= i < |scripts[id]| ==> Harmless(scripts[id][i])
  }

  ghost predicate Unprivileged(c: Turn) {
    SAFE_MODE !in c.inputs && Foreign(c.seen) && HarmlessAll(c.scripts)
  }

  ghost predicate AllUnprivileged(cycles: seq<Cycle>) {
    forall i :: 0 <= i < |cycles| ==> Unprivileged(cycles[i].turn) && Foreign(cycles[i].landed)
  }

  lemma {:induction false} PlayedHarmless(
    g: Guards, tags: Tags, claims: map<string, Claims>, script: seq<Effect>, now: real, tripped: bool)
    requires SAFE_MODE in tags && forall i :: 0 <= i < |script| ==> Harmless(script[i])
    requires forall ch :: ch in g.guarded ==> ch in claims && GuardedBy(g, claims[ch], tripped)
    ensures var o := Played(tags, claims, script, now);
            && o.tags[SAFE_MODE].value == tags[SAFE_MODE].value
            && forall ch :: ch in g.guarded ==> GuardedBy(g, o.claims[ch], tripped)
  {
    if script != [] {
      var o := Acted(tags, claims, script[0], now);
      assert Harmless(script[0]);
      assert forall ch :: ch in g.guarded ==> ch in o.claims && GuardedBy(g, o.claims[ch], tripped);
      if o.ok { PlayedHarmless(g, o.tags, o.claims, script[1..], now, tripped); }
    }
  }

  /** After its run a controller is noted as failing exactly if it raised; no other's note changes. */
  lemma RaisingIsNoted(plan: Plan, w: World, id: nat, c: Turn)
    requires Equipped(plan, w)
    ensures var noted := Contained(plan, w, id, c).failing;
            && (id in noted <==> !Played(w.tags, w.claims, ScriptOf(c, id), c.now).ok)
            && forall k :: k != id ==> (k in noted <==> k in w.failing)
  {
    hide Equipped;
  }

  lemma GuardedInterlocks(plan: Plan, w: World, now: real)
    requires Equipped(plan, w) && SafetyLands(plan, w.tags)
    requires forall ch :: ch in plan.guards.guarded ==> GuardedBy(plan.guards, w.claims[ch], w.lock.tripped)
    ensures Interlocked(plan, Guarded(plan, w, now))
  {
    var g := plan.guards;
    PostedAllAt(w.claims, g.guarded, Claim(SafePin(g), now));
    WithdrawnAllAt(w.claims, g.guarded, SAFETY);
    hide SafetyVerdict;
  }

  lemma RanKeeps(plan: Plan, w: World, r: Runner, c: Turn)
    requires Equipped(plan, w) && SafetyLands(plan, w.tags) && Interlocked(plan, w) && Unprivileged(c)
    ensures Interlocked(plan, Ran(plan, w, r, c))
  {
    match r
    case Guardian =>
      var found := w.(tags := ObservedAll(w.tags, c.seen));
      LandsElsewhere(plan, w.tags, found.tags);
      GuardedInterlocks(plan, found, c.now);
    case Normal(id) => PlayedHarmless(plan.guards, w.tags, w.claims, ScriptOf(c, id), c.now, w.lock.tripped);
  }

  lemma LandsElsewhere(plan: Plan, tags: Tags, after: Tags)
    requires SafetyLands(plan, tags) && SameChannels(tags, after)
    ensures SafetyLands(plan, after)
  {
    forall ch | ch in plan.guards.guarded ensures Reaches(plan, after, ch) {
      assert Reaches(plan, tags, ch);
    }
  }

  lemma {:induction false} RanFirstKeeps(plan: Plan, w: World, controllers: seq<Runner>, c: Turn, n: nat)
    requires Equipped(plan, w) && SafetyLands(plan, w.tags) && Interlocked(plan, w) && Unprivileged(c)
    requires n <= |controllers|
    ensures Interlocked(plan, RanFirst(plan, w, controllers, c, n))
  {
    hide Interlocked, SafetyLands, Ran, Unprivileged;
    if n > 0 {
      RanFirstKeeps(plan, w, controllers, c, n - 1);
      var before := RanFirst(plan, w, controllers, c, n - 1);
      LandsElsewhere(plan, w.tags, before.tags);
      RanKeeps(plan, before, controllers[n - 1], c);
    }
  }

  lemma {:induction false} TasksRanKeep(plan: Plan, w: World, c: Turn, n: nat)
    requires Equipped(plan, w) && SafetyLands(plan, w.tags) && Interlocked(plan, w) && Unprivileged(c)
    requires n <= |plan.tasks|
    ensures Interlocked(plan, TasksRan(plan, w, c, n))
  {
    hide SafetyLands, RanFirst, Unprivileged;
    if n > 0 {
      TasksRanKeep(plan, w, c, n - 1);
      var before := TasksRan(plan, w, c, n - 1);
      LandsElsewhere(plan, w.tags, before.tags);
      var controllers := plan.tasks[n - 1].controllers;
      RanFirstKeeps(plan, before, controllers, c, |controllers|);
    }
  }

  /** While the safety claim stands alone at priority 0, arbitration yields its value. */
  lemma PinPrevails(cfg: Config, cycle: real, g: Guards, claims: map<string, Claims>, now: real, last: Option<real>)
    requires AllKeyed(claims) && cfg.channel in claims && GuardedBy(g, claims[cfg.channel], true)
    requires Inside(Envelope(cfg), g.safeW)
    ensures NextOf(cfg, cycle, claims, now, last) == g.safeW
  {
    var requests, pin := Listing(claims[cfg.channel], now), SafePin(g);
    assert IsLive(claims[cfg.channel], now, pin);
    TopOfSort(requests, pin);
    PinDecides(cfg, Sort(requests), g.safeW, last);
  }

  lemma PurgeKeepsGuard(g: Guards, claims: Claims, now: real, tripped: bool)
    requires GuardedBy(g, claims, tripped)
    ensures GuardedBy(g, Purge(claims, now), tripped)
  {}

  lemma ChannelLands(plan: Plan, w: World, now: real, ch: string, values: seq<real>)
    requires Equipped(plan, w) && SafetyLands(plan, w.tags) && Interlocked(plan, w)
    requires ch in plan.guards.guarded && w.lock.tripped
    requires values == NextAll(plan.cfgs, plan.cycle, w.claims, now, w.lasts)
    ensures ch in w.tags && CommandedFirst(w.tags, plan.cfgs, values, |values|)[ch].value == Fin(plan.guards.safeW)
  {
    assert Reaches(plan, w.tags, ch) && GuardedBy(plan.guards, w.claims[ch], true);
    var i :| 0 <= i < |plan.cfgs| && plan.cfgs[i].channel == ch && Inside(Envelope(plan.cfgs[i]), plan.guards.safeW);
    hide NextOf, CommandedFirst, GuardedBy, Interlocked;
    CommandedAt(w.tags, plan.cfgs, values, |values|, i);
    PinPrevails(plan.cfgs[i], plan.cycle, plan.guards, w.claims, now, w.lasts[i]);
  }

  ghost predicate CommandsSafe(plan: Plan, w: World) {
    forall ch :: ch in plan.guards.guarded ==> ch in w.tags && w.tags[ch].value == Fin(plan.guards.safeW)
  }

  lemma ArbitratedLands(plan: Plan, w: World, now: real)
    requires Equipped(plan, w) && SafetyLands(plan, w.tags) && Interlocked(plan, w)
    ensures Interlocked(plan, Arbitrated(plan, w, now))
    ensures w.lock.tripped ==> CommandsSafe(plan, Arbitrated(plan, w, now))
  {
    var values := NextAll(plan.cfgs, plan.cycle, w.claims, now, w.lasts);
    CommandedFirstAt(w.tags, plan.cfgs, values, |values|);
    forall ch | ch in plan.guards.guarded
      ensures GuardedBy(plan.guards, Purged(plan.cfgs, w.claims, now, |values|)[ch], w.lock.tripped)
      ensures w.lock.tripped ==>
                ch in w.tags && CommandedFirst(w.tags, plan.cfgs, values, |values|)[ch].value == Fin(plan.guards.safeW)
    {
      PurgeKeepsGuard(plan.guards, w.claims[ch], now, w.lock.tripped);
      if w.lock.tripped { ChannelLands(plan, w, now, ch, values); }
    }
    hide NextAll, CommandedFirst, Purged, GuardedBy;
  }

  lemma DecidedLands(plan: Plan, w: World, c: Turn)
    requires Equipped(plan, w) && SafetyLands(plan, w.tags) && Interlocked(plan, w) && Unprivileged(c)
    ensures Interlocked(plan, Decided(plan, w, c))
    ensures Decided(plan, w, c).lock.tripped ==> CommandsSafe(plan, Decided(plan, w, c))
  {
    var read := w.(tags := ObservedAll(w.tags, c.inputs));
    LandsElsewhere(plan, w.tags, read.tags);
    assert Interlocked(plan, read);
    TasksRanKeep(plan, read, c, |plan.tasks|);
    var ran := TasksRan(plan, read, c, |plan.tasks|);
    LandsElsewhere(plan, w.tags, ran.tags);
    ArbitratedLands(plan, ran, c.now);
  }

  lemma OutputKeeps(plan: Plan, w: World, landed: map<string, Ext>)
    requires Equipped(plan, w) && Interlocked(plan, w) && Foreign(landed)
    ensures Interlocked(plan, Output(plan, w, landed))
    ensures CommandsSafe(plan, w) ==> Pinned(plan, Output(plan, w, landed), landed)
  {}

  /** One cycle keeps the interlock, and if tripped it ends with every guarded setpoint at the safe
      value and published so, unless the worker landed another on it after arbitration: whatever
      the other controllers did, and whether or not the safety task was due. */
  lemma InterlockStep(plan: Plan, w: World, c: Cycle)
    requires Equipped(plan, w) && SafetyLands(plan, w.tags) && Interlocked(plan, w)
    requires Unprivileged(c.turn) && Foreign(c.landed)
    ensures Interlocked(plan, Stepped(plan, w, c)) && SafetyLands(plan, Stepped(plan, w, c).tags)
    ensures Stepped(plan, w, c).lock.tripped ==> Pinned(plan, Stepped(plan, w, c), c.landed)
  {
    DecidedLands(plan, w, c.turn);
    OutputKeeps(plan, Decided(plan, w, c.turn), c.landed);
    LandsElsewhere(plan, w.tags, Stepped(plan, w, c).tags);
    hide Decided, Interlocked, Pinned, CommandsSafe, Unprivileged, SafetyLands;
  }

  ghost function After(plan: Plan, w: World, cycles: seq<Cycle>): (after: World)
    requires Equipped(plan, w) && DistinctChannels(plan.cfgs)
    ensures Equipped(plan, after)
  {
    if cycles == [] then w else Stepped(plan, After(plan, w, cycles[..|cycles| - 1]), cycles[|cycles| - 1])
  }

  /** Over every run: sys.safe_mode is 1 exactly while tripped, exactly while the safety claim
      stands on every guarded channel, and then every guarded setpoint is the safe value unless
      the worker landed another. */
  lemma {:induction false} InterlockHolds(plan: Plan, w: World, cycles: seq<Cycle>)
    requires Equipped(plan, w) && SafetyLands(plan, w.tags) && Interlocked(plan, w)
    requires AllUnprivileged(cycles)
    ensures var after := After(plan, w, cycles);
            && Interlocked(plan, after) && SafetyLands(plan, after.tags)
            && (cycles != [] && after.tags[SAFE_MODE].value == Fin(1.0) ==> Pinned(plan, after, cycles[|cycles| - 1].landed))
  {
    assert DistinctChannels(plan.cfgs);
    hide SafetyLands, Stepped, Unprivileged;
    if cycles != [] {
      assert AllUnprivileged(cycles[..|cycles| - 1]);
      InterlockHolds(plan, w, cycles[..|cycles| - 1]);
      InterlockStep(plan, After(plan, w, cycles[..|cycles| - 1]), cycles[|cycles| - 1]);
    }
  }

  // --- fail-closed start -------------------------------------------------------------------

  /** As built: nothing claimed, nothing tripped, every task due. */
  ghost predicate Started(plan: Plan, w: World) {
    && Equipped(plan, w) && w.lock == Interlock(map[], false) && w.tags[SAFE_MODE].value == Fin(0.0)
    && (forall ch :: ch in plan.guards.guarded ==> w.claims[ch] == map[])
    && forall i :: 0 <= i < |w.nextRuns| ==> w.nextRuns[i] == 0.0
  }

  lemma StartsInterlocked(plan: Plan, w: World)
    requires Started(plan, w)
    ensures Interlocked(plan, w)
  {}

  /** Some device has never been read. */
  ghost predicate Blind(tags: Tags) {
    COMMS_AGE in tags && tags[COMMS_AGE].value == PosInf && !Commandable(tags, COMMS_AGE)
  }

  lemma {:induction false} PlayedBlind(tags: Tags, claims: map<string, Claims>, script: seq<Effect>, now: real)
    requires Blind(tags)
    ensures Blind(Played(tags, claims, script, now).tags)
  {
    if script != [] {
      var o := Acted(tags, claims, script[0], now);
      if o.ok { PlayedBlind(o.tags, o.claims, script[1..], now); }
    }
  }

  lemma RanBlind(plan: Plan, w: World, r: Runner, c: Turn)
    requires Equipped(plan, w) && Blind(w.tags) && Foreign(c.seen)
    ensures Blind(Ran(plan, w, r, c).tags) && Ran(plan, w, r, c).nextRuns == w.nextRuns
    ensures w.lock.tripped || r.Guardian? ==> Ran(plan, w, r, c).lock.tripped
  {
    hide SafetyClaims, Played;
    match r
    case Guardian =>
    case Normal(id) => PlayedBlind(w.tags, w.claims, ScriptOf(c, id), c.now);
  }

  lemma {:induction false} RanFirstBlind(plan: Plan, w: World, controllers: seq<Runner>, c: Turn, n: nat)
    requires Equipped(plan, w) && Blind(w.tags) && Foreign(c.seen) && n <= |controllers|
    ensures var after := RanFirst(plan, w, controllers, c, n);
            && Blind(after.tags) && after.nextRuns == w.nextRuns
            && (w.lock.tripped || Guardian in controllers[..n] ==> after.lock.tripped)
  {
    hide Equipped, Blind, Ran, SameShape;
    if n > 0 {
      RanFirstBlind(plan, w, controllers, c, n - 1);
      RanBlind(plan, RanFirst(plan, w, controllers, c, n - 1), controllers[n - 1], c);
      assert controllers[..n] == controllers[..n - 1] + [controllers[n - 1]];
    }
  }

  lemma {:induction false} TasksRanBlind(plan: Plan, w: World, c: Turn, n: nat)
    requires Equipped(plan, w) && Blind(w.tags) && Foreign(c.seen) && n <= |plan.tasks|
    ensures var after := TasksRan(plan, w, c, n);
            && Blind(after.tags)
            && (forall i :: n <= i < |plan.tasks| ==> after.nextRuns[i] == w.nextRuns[i])
            && (w.lock.tripped || (exists i :: 0 <= i < n && c.now >= w.nextRuns[i] && Guardian in plan.tasks[i].controllers)
                ==> after.lock.tripped)
  {
    hide RanFirst, Blind, SameShape;
    if n > 0 {
      TasksRanBlind(plan, w, c, n - 1);
      var before, controllers := TasksRan(plan, w, c, n - 1), plan.tasks[n - 1].controllers;
      RanFirstBlind(plan, before, controllers, c, |controllers|);
      assert controllers[..|controllers|] == controllers;
    }
  }

  /** From the start until a cycle first reads every device's age, every guarded setpoint is
      the safe value at the end of every cycle, and published so, unless the worker landed another
      on it after arbitration. */
  lemma FailClosedStart(plan: Plan, w: World, cycles: seq<Cycle>, guard: nat)
    requires Started(plan, w) && SafetyLands(plan, w.tags)
    requires COMMS_AGE in w.tags && !Commandable(w.tags, COMMS_AGE)
    requires guard < |plan.tasks| && Guardian in plan.tasks[guard].controllers
    requires cycles != [] && cycles[0].turn.now >= 0.0
    requires AllBlind(cycles) && AllUnprivileged(cycles)
    ensures var after := After(plan, w, cycles);
            after.lock.tripped && after.tags[SAFE_MODE].value == Fin(1.0) && Pinned(plan, after, cycles[|cycles| - 1].landed)
  {
    assert Interlocked(plan, w);
    InterlockHolds(plan, w, cycles);
    TrippedWhileBlind(plan, w, cycles, guard);
  }

  predicate ReadsBlind(c: Turn) {
    COMMS_AGE in c.inputs && c.inputs[COMMS_AGE] == PosInf && Foreign(c.seen)
  }

  ghost predicate AllBlind(cycles: seq<Cycle>) {
    forall i :: 0 <= i < |cycles| ==> ReadsBlind(cycles[i].turn)
  }

  lemma AllButLastBlind(cycles: seq<Cycle>)
    requires cycles != [] && AllBlind(cycles)
    ensures AllBlind(cycles[..|cycles| - 1]) && ReadsBlind(cycles[|cycles| - 1].turn)
  {}

  lemma {:induction false} TrippedWhileBlind(plan: Plan, w: World, cycles: seq<Cycle>, guard: nat)
    requires Equipped(plan, w) && DistinctChannels(plan.cfgs) && COMMS_AGE in w.tags && !Commandable(w.tags, COMMS_AGE)
    requires guard < |plan.tasks| && Guardian in plan.tasks[guard].controllers && w.nextRuns[guard] == 0.0
    requires cycles != [] && cycles[0].turn.now >= 0.0
    requires AllBlind(cycles)
    ensures After(plan, w, cycles).lock.tripped
  {
    var init, c := cycles[..|cycles| - 1], cycles[|cycles| - 1];
    AfterShape(plan, w, init);
    AllButLastBlind(cycles);
    hide Stepped, Equipped, DistinctChannels, SameShape, Commandable, AllBlind, ReadsBlind;
    SameTag(w, After(plan, w, init), COMMS_AGE);
    if init != [] { TrippedWhileBlind(plan, w, init, guard); }
    StepBlind(plan, After(plan, w, init), c, guard);
  }

  lemma SameTag(w: World, after: World, name: string)
    requires SameShape(w, after) && name in w.tags
    ensures name in after.tags && (Commandable(after.tags, name) <==> Commandable(w.tags, name))
  {}

  lemma SameShapeTransitive(a: World, b: World, c: World)
    requires SameShape(a, b) && SameShape(b, c)
    ensures SameShape(a, c)
  {}

  lemma {:induction false} AfterShape(plan: Plan, w: World, cycles: seq<Cycle>)
    requires Equipped(plan, w) && DistinctChannels(plan.cfgs)
    ensures SameShape(w, After(plan, w, cycles))
  {
    assert SameShape(w, w);
    hide Stepped, Equipped, SameShape;
    if cycles != [] {
      var before := After(plan, w, cycles[..|cycles| - 1]);
      AfterShape(plan, w, cycles[..|cycles| - 1]);
      SameShapeTransitive(w, before, Stepped(plan, before, cycles[|cycles| - 1]));
    }
  }

  lemma StepBlind(plan: Plan, w: World, c: Cycle, guard: nat)
    requires Equipped(plan, w) && DistinctChannels(plan.cfgs) && COMMS_AGE in w.tags && !Commandable(w.tags, COMMS_AGE)
    requires ReadsBlind(c.turn)
    requires guard < |plan.tasks| && Guardian in plan.tasks[guard].controllers
    requires w.lock.tripped || c.turn.now >= w.nextRuns[guard]
    ensures Stepped(plan, w, c).lock.tripped
  {
    var read := w.(tags := ObservedAll(w.tags, c.turn.inputs));
    TasksRanBlind(plan, read, c.turn, |plan.tasks|);
  }

  // --- task intervals -------------------------------------------------------------------------------

  lemma RanTimes(plan: Plan, w: World, r: Runner, c: Turn)
    requires Equipped(plan, w)
    ensures Ran(plan, w, r, c).nextRuns == w.nextRuns
  {
    hide Equipped, SafetyVerdict, SafetyClaims, Commanded, Played;
  }

  lemma {:induction false} RanFirstTimes(plan: Plan, w: World, controllers: seq<Runner>, c: Turn, n: nat)
    requires Equipped(plan, w) && n <= |controllers|
    ensures RanFirst(plan, w, controllers, c, n).nextRuns == w.nextRuns
  {
    hide Equipped, Ran, SameShape;
    if n > 0 {
      RanFirstTimes(plan, w, controllers, c, n - 1);
      RanTimes(plan, RanFirst(plan, w, controllers, c, n - 1), controllers[n - 1], c);
    }
  }

  lemma TaskRanTimes(plan: Plan, w: World, j: nat, c: Turn, i: nat)
    requires Equipped(plan, w) && j < |plan.tasks| && i < |plan.tasks|
    ensures TaskRan(plan, w, j, c).nextRuns[i] == if i == j && c.now >= w.nextRuns[i] then c.now + plan.tasks[i].interval else w.nextRuns[i]
  {
    RanFirstTimes(plan, w, plan.tasks[j].controllers, c, |plan.tasks[j].controllers|);
    hide RanFirst;
  }

  /** The first n tasks have been looked at, each exactly once. */
  lemma {:induction false} TasksRanTimes(plan: Plan, w: World, c: Turn, n: nat, i: nat)
    requires Equipped(plan, w) && n <= |plan.tasks| && i < |plan.tasks|
    ensures TasksRan(plan, w, c, n).nextRuns[i] ==
            if i < n && c.now >= w.nextRuns[i] then c.now + plan.tasks[i].interval else w.nextRuns[i]
  {
    hide TaskRan, Equipped, SameShape;
    if n > 0 {
      TasksRanTimes(plan, w, c, n - 1, i);
      TaskRanTimes(plan, TasksRan(plan, w, c, n - 1), n - 1, c, i);
    }
  }

  lemma SteppedTimes(plan: Plan, w: World, c: Cycle, i: nat)
    requires Equipped(plan, w) && DistinctChannels(plan.cfgs) && i < |plan.tasks|
    ensures Stepped(plan, w, c).nextRuns[i] == if c.turn.now >= w.nextRuns[i] then c.turn.now + plan.tasks[i].interval else w.nextRuns[i]
  {
    TasksRanTimes(plan, w.(tags := ObservedAll(w.tags, c.turn.inputs)), c.turn, |plan.tasks|, i);
    hide TasksRan, ObservedAll, NextAll, CommandedFirst, Purged;
  }

  /** The times at which a task has run. */
  ghost function RunTimes(plan: Plan, w: World, cycles: seq<Cycle>, i: nat): seq<real>
    requires Equipped(plan, w) && DistinctChannels(plan.cfgs) && i < |plan.tasks|
  {
    if cycles == [] then []
    else
      var init, now := cycles[..|cycles| - 1], cycles[|cycles| - 1].turn.now;
      RunTimes(plan, w, init, i) + if now >= After(plan, w, init).nextRuns[i] then [now] else []
  }

  lemma TimesMore(plan: Plan, w: World, cycles: seq<Cycle>, i: nat)
    requires Equipped(plan, w) && DistinctChannels(plan.cfgs) && i < |plan.tasks| && cycles != []
    ensures var init, now := cycles[..|cycles| - 1], cycles[|cycles| - 1].turn.now;
            RunTimes(plan, w, cycles, i) ==
            RunTimes(plan, w, init, i) + if now >= After(plan, w, init).nextRuns[i] then [now] else []
  {
    hide After, Equipped, DistinctChannels;
  }

  ghost predicate Spaced(times: seq<real>, interval: real) {
    forall k :: 0 < k < |times| ==> times[k] >= times[k - 1] + interval
  }

  /** When a task is due next that has run at these times. */
  function DueAt(times: seq<real>, interval: real, first: real): real {
    if times == [] then first else times[|times| - 1] + interval
  }

  /** A task runs again in the first cycle at least its interval after its last run, and in none
      before. */
  ghost predicate RunsInTime(plan: Plan, w: World, cycles: seq<Cycle>, i: nat)
    requires Equipped(plan, w) && DistinctChannels(plan.cfgs) && i < |plan.tasks|
  {
    && Spaced(RunTimes(plan, w, cycles, i), plan.tasks[i].interval)
    && After(plan, w, cycles).nextRuns[i] == DueAt(RunTimes(plan, w, cycles, i), plan.tasks[i].interval, w.nextRuns[i])
  }

  lemma RunsMore(plan: Plan, w: World, cycles: seq<Cycle>, i: nat)
    requires Equipped(plan, w) && DistinctChannels(plan.cfgs) && i < |plan.tasks| && cycles != []
    requires RunsInTime(plan, w, cycles[..|cycles| - 1], i)
    ensures RunsInTime(plan, w, cycles, i)
  {
    hide Spaced, DueAt, RunTimes, DistinctChannels, After, Stepped, Configured, Readable;
    TimesMore(plan, w, cycles, i);
    AfterMore(plan, w, cycles, i);
    var init, now := cycles[..|cycles| - 1], cycles[|cycles| - 1].turn.now;
    SpacedNext(RunTimes(plan, w, init, i), RunTimes(plan, w, cycles, i), plan.tasks[i].interval, w.nextRuns[i],
               After(plan, w, init).nextRuns[i], After(plan, w, cycles).nextRuns[i], now);
    hide Equipped;
  }

  /** Over every run of cycles each task keeps its interval. */
  lemma {:induction false} RunsAnIntervalApart(plan: Plan, w: World, cycles: seq<Cycle>, i: nat)
    requires Equipped(plan, w) && DistinctChannels(plan.cfgs) && i < |plan.tasks|
    ensures RunsInTime(plan, w, cycles, i)
  {
    if cycles != [] {
      hide RunsInTime;
      RunsAnIntervalApart(plan, w, cycles[..|cycles| - 1], i);
      RunsMore(plan, w, cycles, i);
    } else {
      NoRuns(plan, w, i);
    }
    hide Equipped, RunTimes, DistinctChannels, After;
  }

  lemma SpacedNext(times: seq<real>, more: seq<real>, interval: real, first: real, due: real, next: real, now: real)
    requires Spaced(times, interval) && due == DueAt(times, interval, first)
    requires more == times + if now >= due then [now] else []
    requires next == if now >= due then now + interval else due
    ensures Spaced(more, interval) && next == DueAt(more, interval, first)
  {
    assert times + [] == times;
  }

  lemma NoRuns(plan: Plan, w: World, i: nat)
    requires Equipped(plan, w) && DistinctChannels(plan.cfgs) && i < |plan.tasks|
    ensures RunTimes(plan, w, [], i) == [] && After(plan, w, []) == w
  {
    hide Equipped, DistinctChannels;
  }

  lemma AfterMore(plan: Plan, w: World, cycles: seq<Cycle>, i: nat)
    requires Equipped(plan, w) && DistinctChannels(plan.cfgs) && i < |plan.tasks| && cycles != []
    ensures var before, now := After(plan, w, cycles[..|cycles| - 1]).nextRuns[i], cycles[|cycles| - 1].turn.now;
            After(plan, w, cycles).nextRuns[i] == if now >= before then now + plan.tasks[i].interval else before
  {
    SteppedTimes(plan, After(plan, w, cycles[..|cycles| - 1]), cycles[|cycles| - 1], i);
    hide Stepped, Equipped, DistinctChannels;
  }

  // --- what the assumptions are for -----------------------------------------------------------

  /** A due safety task judges what this very cycle read, and what has landed since; otherwise the
      last verdict stands. */
  lemma VerdictOnThisCycle(plan: Plan, w: World, c: Cycle)
    requires Equipped(plan, w) && DistinctChannels(plan.cfgs)
    requires plan.tasks != [] && plan.tasks[0].controllers == [Guardian]
    requires forall i :: 0 < i < |plan.tasks| ==> Guardian !in plan.tasks[i].controllers
    ensures Stepped(plan, w, c).lock ==
            if c.turn.now >= w.nextRuns[0]
            then SafetyVerdict(plan.guards, w.lock, ObservedAll(ObservedAll(w.tags, c.turn.inputs), c.turn.seen), c.turn.now)
            else w.lock
  {
    var read := w.(tags := ObservedAll(w.tags, c.turn.inputs));
    assert Equipped(plan, read);
    hide SafetyVerdict, Equipped, Stepped, TasksRan;
    SteppedLock(plan, w, c);
    FirstTaskLock(plan, read, c.turn);
    TasksRanLock(plan, read, c.turn, |plan.tasks|);
  }

  lemma SteppedLock(plan: Plan, w: World, c: Cycle)
    requires Equipped(plan, w) && DistinctChannels(plan.cfgs)
    ensures Stepped(plan, w, c).lock == TasksRan(plan, w.(tags := ObservedAll(w.tags, c.turn.inputs)), c.turn, |plan.tasks|).lock
  {
    hide TasksRan;
  }

  lemma FirstTaskLock(plan: Plan, w: World, c: Turn)
    requires Equipped(plan, w) && plan.tasks != [] && plan.tasks[0].controllers == [Guardian]
    ensures TasksRan(plan, w, c, 1).lock ==
            if c.now >= w.nextRuns[0] then SafetyVerdict(plan.guards, w.lock, ObservedAll(w.tags, c.seen), c.now) else w.lock
  {
    hide SafetyVerdict, SafetyClaims;
    assert RanFirst(plan, w, [Guardian], c, 1) == Guarded(plan, w.(tags := ObservedAll(w.tags, c.seen)), c.now);
    assert TasksRan(plan, w, c, 1) == TaskRan(plan, w, 0, c);
  }

  lemma {:induction false} RanFirstLock(plan: Plan, w: World, controllers: seq<Runner>, c: Turn, n: nat)
    requires Equipped(plan, w) && n <= |controllers| && Guardian !in controllers
    ensures RanFirst(plan, w, controllers, c, n).lock == w.lock
  {
    if n > 0 {
      RanFirstLock(plan, w, controllers, c, n - 1);
      assert controllers[n - 1] in controllers;
    }
  }

  lemma {:induction false} TasksRanLock(plan: Plan, w: World, c: Turn, n: nat)
    requires Equipped(plan, w) && 0 < n <= |plan.tasks|
    requires forall i :: 0 < i < |plan.tasks| ==> Guardian !in plan.tasks[i].controllers
    ensures TasksRan(plan, w, c, n).lock == TasksRan(plan, w, c, 1).lock
  {
    hide RanFirst;
    if n > 1 {
      TasksRanLock(plan, w, c, n - 1);
      RanFirstLock(plan, TasksRan(plan, w, c, n - 1), plan.tasks[n - 1].controllers, c, |plan.tasks[n - 1].controllers|);
    }
  }

  /** The envelope check of validate_safety_allocation is exact: a lone safety claim resolves
      to the safe value if and only if the check passes. */
  lemma TripLandsIffInEnvelope(cfg: Config, cycle: real, g: Guards, last: Option<real>)
    requires Sane(cfg, cycle) && (last.Some? ==> Inside(Envelope(cfg), last.value))
    ensures Resolved(cfg, cycle, [SafePin(g)], last) == g.safeW <==> Inside(Envelope(cfg), g.safeW)
  {
    if Inside(Envelope(cfg), g.safeW) {
      TopOfSort([SafePin(g)], SafePin(g));
      PinDecides(cfg, Sort([SafePin(g)]), g.safeW, last);
    } else {
      ResolvedInside(cfg, cycle, [SafePin(g)], last);
    }
  }

  /** _safe_active_power_w, for a configured value and the first guarded channel's envelope. */
  function SafeActivePower(configured: Option<real>, first: Option<Config>): real {
    if configured.Some? then configured.value
    else if first.None? then 0.0
    else if first.value.pMin <= 0.0 <= first.value.pMax then 0.0
    else first.value.pMin
  }

  /** Left to itself, the configuration picks a safe value that lands; of a unit that can
      produce, the operating point nearest to zero. */
  lemma DefaultSafePowerLands(cfg: Config, cycle: real, g: Guards, last: Option<real>)
    requires Sane(cfg, cycle) && (last.Some? ==> Inside(Envelope(cfg), last.value))
    requires g.safeW == SafeActivePower(None, Some(cfg))
    ensures Resolved(cfg, cycle, [SafePin(g)], last) == g.safeW
    ensures cfg.pMax >= 0.0 ==> forall x :: Inside(Envelope(cfg), x) ==> Abs(g.safeW) <= Abs(x)
  {
    TripLandsIffInEnvelope(cfg, cycle, g, last);
  }

  /** Whatever ranks lower only narrows the window further. */
  lemma {:induction false} WindowNarrows(env: Span, s: seq<Request>, i: nat, x: real)
    requires env.lo <= env.hi && i <= |s| && Inside(Window(env, s), x)
    ensures Inside(Window(env, s[..i]), x)
  {
    if i < |s| {
      var init := s[..|s| - 1];
      WindowNonEmpty(env, init);
      assert init[..i] == s[..i];
      WindowNarrows(env, init, i, x);
    } else {
      assert s[..i] == s;
    }
  }

  /** The honored requests up to a rank come first among the honored. */
  lemma {:induction false} HonoredBegin(env: Span, s: seq<Request>, i: nat)
    requires i <= |s|
    ensures Honored(env, s[..i]) <= Honored(env, s)
  {
    if i < |s| {
      var init := s[..|s| - 1];
      assert init[..i] == s[..i];
      HonoredBegin(env, init, i);
    } else {
      assert s[..i] == s;
    }
  }

  lemma {:induction false} FirstTargetStays(a: seq<Request>, b: seq<Request>)
    requires a <= b && FirstTarget(a).Some?
    ensures FirstTarget(b) == FirstTarget(a)
  {
    if a[0].target.None? { FirstTargetStays(a[1..], b[1..]); }
  }

  lemma {:induction false} HonoredFrom(env: Span, s: seq<Request>, r: Request)
    requires r in Honored(env, s)
    ensures r in s
  {
    if s != [] {
      var init := s[..|s| - 1];
      if r in Honored(env, init) { HonoredFrom(env, init, r); }
    }
  }

  lemma TargetAtLast(honored: seq<Request>)
    requires honored != [] && honored[|honored| - 1].target.Some?
    ensures FirstTarget(honored).Some? && FirstTarget(honored).value in honored
  {
    FirstTargetMember(honored);
  }

  /** A pin that fits where it ranks is forced if all that outranks it has its priority 0. */
  lemma PinIsForced(env: Span, ranked: seq<Request>, i: nat)
    requires i < |ranked| && Accepts(env, ranked, i) && ranked[i].target.Some?
    requires forall j :: 0 <= j <= i ==> ranked[j].priority == 0
    ensures FirstTarget(Honored(env, ranked)).Some? && FirstTarget(Honored(env, ranked)).value.priority == 0
  {
    var upTo := ranked[..i + 1];
    assert upTo[..i] == ranked[..i] && upTo[..|upTo| - 1] == ranked[..i];
    var honored := Honored(env, upTo);
    assert honored[|honored| - 1] == ranked[i];
    TargetAtLast(honored);
    HonoredFrom(env, upTo, FirstTarget(honored).value);
    HonoredBegin(env, ranked, i + 1);
    FirstTargetStays(honored, Honored(env, ranked));
  }

  /** Among any claims, a pin at priority 0 sets the goal, past the ramp, if and only if its value
      lies in what the claims outranking it have left; if not, it is rejected. */
  lemma PinSetsGoalIff(cfg: Config, ranked: seq<Request>, i: nat, w: real, last: Option<real>)
    requires cfg.pMin <= cfg.pMax && i < |ranked| && IsPin(ranked[i], w)
    requires forall j :: 0 <= j <= i ==> ranked[j].priority == 0
    ensures var goal := GoalOf(cfg, ranked, last);
            var left := Window(Envelope(cfg), ranked[..i]);
            && (goal.target == w && goal.forced <==> Inside(left, w))
            && (Accepts(Envelope(cfg), ranked, i) <==> Inside(left, w))
  {
    var env, goal := Envelope(cfg), GoalOf(cfg, ranked, last);
    GoalInside(cfg, ranked, last);
    WindowNarrows(env, ranked, i, goal.target);
    WindowNonEmpty(env, ranked[..i]);
    if Inside(Window(env, ranked[..i]), w) {
      assert ranked[..i + 1][..i] == ranked[..i];
      assert Window(env, ranked[..i + 1]) == Span(w, w);
      WindowNarrows(env, ranked, i + 1, goal.target);
      PinIsForced(env, ranked, i);
    }
    hide Honored, FirstTarget;
  }

  /** The trip lands past the ramp whatever else is posted, if and only if the safe value lies in
      what the claims ranked before the interlock's have left, and it is rejected if not. Rivals
      at its priority are harmless when they sort behind it, or contain its value. */
  lemma TripLandsIff(cfg: Config, cycle: real, g: Guards, requests: seq<Request>, last: Option<real>, i: nat)
    requires cfg.pMin <= cfg.pMax && i < |Sort(requests)| && Sort(requests)[i] == SafePin(g)
    requires forall r :: r in requests ==> r.priority >= 0
    ensures var goal := GoalOf(cfg, Sort(requests), last);
            var left := Window(Envelope(cfg), Sort(requests)[..i]);
            && (goal.target == g.safeW && goal.forced <==> Inside(left, g.safeW))
            && (Accepts(Envelope(cfg), Sort(requests), i) <==> Inside(left, g.safeW))
            && (Inside(left, g.safeW) ==> Resolved(cfg, cycle, requests, last) == g.safeW)
  {
    var ranked := Sort(requests);
    SortCorrect(requests);
    forall j | 0 <= j <= i ensures ranked[j].priority == 0 {
      MemberOfPermutation(requests, ranked, ranked[j]);
      assert j < i ==> !Outranks(ranked[i], ranked[j]);
    }
    PinSetsGoalIff(cfg, ranked, i, g.safeW, last);
    hide GoalOf, Window, Sort, Fits;
  }

  /** A rival pin at priority 0 whose name sorts before the interlock's wins. */
  lemma RivalOutranksSafety(cfg: Config, cycle: real, g: Guards, rival: Request, w: real, last: Option<real>)
    requires rival.priority == 0 && NameLess(rival.requester, SAFETY) && IsPin(rival, w) && Inside(Envelope(cfg), w)
    ensures Resolved(cfg, cycle, [SafePin(g), rival], last) == w
  {
    TopOfSort([SafePin(g), rival], rival);
    PinDecides(cfg, Sort([SafePin(g), rival]), w, last);
  }
}
