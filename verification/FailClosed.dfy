/** The interlock over the driver, in the assembled system: what the scan cycle publishes before
    the bus has been read, and how a trip reaches the device. */
module FailClosed {
  import opened Num
  import opened Channels
  import opened CachedDriver
  import opened Interleaving
  import opened SetpointFlow
  import opened ReadFlow
  import opened Publication
  import opened Weaving
  import opened Allocator
  import opened Scan
  import opened Assembled

  /** Some device has not been read fully once. */
  ghost predicate SomeUnread(L: Layout, s: Sys) {
    exists d :: d in L.channels && d !in s.past.stamps
  }

  /** So it was whenever a cycle of the run read the global age, the first of the ages. */
  ghost predicate NeverAllRead(plan: Plan, L: Layout, w: World, s: Sys, beats: seq<Beat>)
    requires Equipped(plan, w) && DistinctChannels(plan.cfgs) && AllPlay(plan, L, w, s, beats)
  {
    beats != [] ==>
      var init, last := beats[..|beats| - 1], beats[|beats| - 1];
      var s' := BusAfter(L, s, TraceOf(plan, L, w, s, init));
      NeverAllRead(plan, L, w, s, init) && SomeUnread(L, Run(L, s', UpTo(L, s', last, 0)))
  }

  lemma AgeShown(L: Layout, s: Sys, events: seq<Event>, early: seq<Event>, rest: seq<Event>, at: real)
    requires Initial(L, s) && L.channels != map[] && ClockRuns(events + (early + rest))
    requires SomeUnread(L, Run(L, Run(L, s, events), early))
    ensures GlobalAge(Run(L, Run(L, s, events), early).lastOk, at) == PosInf
  {
    assert ClockRuns(events + early) by {
      forall i | 0 <= i < |events + early| && (events + early)[i].EndRead? ensures (events + early)[i].at > 0.0 {
        assert (events + (early + rest))[i] == (events + early)[i];
      }
    }
    hide Run, Initial, ClockRuns;
    RunAppend(L, s, events, early);
    GlobalAgeIsStalest(L, s, events + early, at);
  }

  lemma BeatBlind(plan: Plan, L: Layout, w: World, s: Sys, b: Beat)
    requires Equipped(plan, w) && Tied(plan, L, w, s) && Plays(plan, L, w, s, b)
    requires AgeSeen(L, s, b, 0) == PosInf
    ensures ReadsBlind(CycleOf(plan, L, w, s, b).turn)
  {
    hide Run, Shaped, Equipped, ReadsAges, HarmlessAll, BeforePublish, ReadingEvents, Enumerates, GapsAside, Setting, SameOff;
    hide Tied, AgeSeen, Ages, BeatEvents;
    PlaysUnprivileged(plan, L, w, s, b);
    AgesRead(plan, L, w, s, b, 0);
  }

  lemma LastBlind(plan: Plan, L: Layout, w: World, s: Sys, beats: seq<Beat>)
    requires Equipped(plan, w) && SafetyLands(plan, w.tags) && Interlocked(plan, w) && Tied(plan, L, w, s)
    requires AllPlay(plan, L, w, s, beats) && beats != [] && Initial(L, s) && L.channels != map[]
    requires NeverAllRead(plan, L, w, s, beats) && ClockRuns(TraceOf(plan, L, w, s, beats).events)
    ensures var before, b := TraceOf(plan, L, w, s, beats[..|beats| - 1]), beats[|beats| - 1];
            && ReadsBlind(CycleOf(plan, L, WorldAfter(plan, w, before), BusAfter(L, s, before), b).turn)
            && ClockRuns(before.events)
  {
    hide Run, Equipped, DistinctChannels, Tied, Interlocked, SafetyLands, Plays, CycleOf, After, BeatEvents, Initial;
    hide ClockRuns, SomeUnread, ReadsBlind;
    LandsDistinct(plan, w.tags);
    var before, b := TraceOf(plan, L, w, s, beats[..|beats| - 1]), beats[|beats| - 1];
    var w', s' := WorldAfter(plan, w, before), BusAfter(L, s, before);
    AssembledHolds(plan, L, w, s, beats[..|beats| - 1]);
    assert |b.shows| == |Ages(L)| by { PlaysShows(plan, L, w', s', b); }
    var rest := BeatStarts(plan, L, w', s', b, 0);
    AgeShown(L, s, before.events, UpTo(L, s', b, 0), rest, b.shows[0].at);
    ClockBefore(before.events, UpTo(L, s', b, 0) + rest);
    BeatBlind(plan, L, w', s', b);
  }

  lemma {:induction false} RunBlind(plan: Plan, L: Layout, w: World, s: Sys, beats: seq<Beat>)
    requires Equipped(plan, w) && SafetyLands(plan, w.tags) && Interlocked(plan, w) && Tied(plan, L, w, s)
    requires AllPlay(plan, L, w, s, beats) && Initial(L, s) && L.channels != map[]
    requires NeverAllRead(plan, L, w, s, beats) && ClockRuns(TraceOf(plan, L, w, s, beats).events)
    ensures AllBlind(TraceOf(plan, L, w, s, beats).cycles)
  {
    hide Run, Equipped, DistinctChannels, Tied, Interlocked, SafetyLands, Plays, CycleOf, After, BeatEvents, Initial;
    hide ClockRuns, SomeUnread, ReadsBlind;
    if beats != [] {
      LastBlind(plan, L, w, s, beats);
      RunBlind(plan, L, w, s, beats[..|beats| - 1]);
    }
  }

  lemma LastUnprivileged(plan: Plan, L: Layout, w: World, s: Sys, beats: seq<Beat>)
    requires Equipped(plan, w) && SafetyLands(plan, w.tags) && Interlocked(plan, w) && Tied(plan, L, w, s)
    requires AllPlay(plan, L, w, s, beats) && beats != []
    ensures var cycles := TraceOf(plan, L, w, s, beats).cycles;
            && cycles[..|cycles| - 1] == TraceOf(plan, L, w, s, beats[..|beats| - 1]).cycles
            && Unprivileged(cycles[|cycles| - 1].turn) && Foreign(cycles[|cycles| - 1].landed)
  {
    hide Run, Equipped, DistinctChannels, Tied, Interlocked, SafetyLands, Plays, CycleOf, After, BeatEvents, Unprivileged;
    hide Foreign;
    LandsDistinct(plan, w.tags);
    var before, b := TraceOf(plan, L, w, s, beats[..|beats| - 1]), beats[|beats| - 1];
    AssembledHolds(plan, L, w, s, beats[..|beats| - 1]);
    PlaysUnprivileged(plan, L, WorldAfter(plan, w, before), BusAfter(L, s, before), b);
  }

  lemma UnprivilegedMore(cycles: seq<Cycle>)
    requires cycles != [] && AllUnprivileged(cycles[..|cycles| - 1])
    requires Unprivileged(cycles[|cycles| - 1].turn) && Foreign(cycles[|cycles| - 1].landed)
    ensures AllUnprivileged(cycles)
  {}

  lemma {:induction false} RunUnprivileged(plan: Plan, L: Layout, w: World, s: Sys, beats: seq<Beat>)
    requires Equipped(plan, w) && SafetyLands(plan, w.tags) && Interlocked(plan, w) && Tied(plan, L, w, s)
    requires AllPlay(plan, L, w, s, beats)
    ensures AllUnprivileged(TraceOf(plan, L, w, s, beats).cycles)
  {
    hide Run, Equipped, DistinctChannels, Tied, Interlocked, SafetyLands, Plays, CycleOf, After, BeatEvents, Unprivileged;
    hide Foreign;
    LandsDistinct(plan, w.tags);
    if beats != [] {
      RunUnprivileged(plan, L, w, s, beats[..|beats| - 1]);
      LastUnprivileged(plan, L, w, s, beats);
      hide AllUnprivileged;
      UnprivilegedMore(TraceOf(plan, L, w, s, beats).cycles);
    }
  }

  lemma {:induction false} FirstCycle(plan: Plan, L: Layout, w: World, s: Sys, beats: seq<Beat>)
    requires Equipped(plan, w) && DistinctChannels(plan.cfgs) && AllPlay(plan, L, w, s, beats)
    ensures var cycles := TraceOf(plan, L, w, s, beats).cycles;
            |cycles| == |beats| && (beats != [] ==> cycles[0].turn.now == beats[0].now)
  {
    hide Run, Equipped, DistinctChannels, Plays, After, BeatEvents, BeforePublish, AfterReading, Readout;
    if beats != [] { FirstCycle(plan, L, w, s, beats[..|beats| - 1]); }
  }

  /** A run from the start in which no cycle has seen every device read. */
  ghost predicate Starting(plan: Plan, L: Layout, w: World, s: Sys, beats: seq<Beat>, i: nat, j: nat)
    requires Equipped(plan, w) && DistinctChannels(plan.cfgs)
  {
    && AllPlay(plan, L, w, s, beats) && IsGuarded(plan, beats, i, j) && beats[0].now >= 0.0
    && ClockRuns(TraceOf(plan, L, w, s, beats).events) && NeverAllRead(plan, L, w, s, beats)
  }

  /** Until every device has been read fully once, whatever the worker and the other controllers
      do, every cycle ends tripped and has published the safe value on a guarded setpoint, unless
      the worker put another value on it between its command and its reading for publication; and
      exactly then another. With a private store, always the safe value. */
  lemma SafeUntilAllRead(plan: Plan, L: Layout, w: World, s: Sys, beats: seq<Beat>, guard: nat, i: nat, j: nat)
    requires Started(plan, w) && SafetyLands(plan, w.tags) && Tied(plan, L, w, s) && !Commandable(w.tags, COMMS_AGE)
    requires guard < |plan.tasks| && Scan.Guardian in plan.tasks[guard].controllers
    requires Initial(L, s) && L.channels != map[]
    requires Starting(plan, L, w, s, beats, i, j)
    ensures var trace, n, safe := TraceOf(plan, L, w, s, beats), plan.cfgs[i].channel, Fin(plan.guards.safeW);
            var cache := BusAfter(L, s, trace).mirror.cache;
            && WorldAfter(plan, w, trace).lock.tripped
            && n in cache && (cache[n] == safe <==> !IsOther(LastDisplaced(plan, L, w, s, beats, i, j), safe))
            && (!L.shared ==> cache[n] == safe)
  {
    hide Run, Equipped, DistinctChannels, Tied, Interlocked, SafetyLands, Plays, After, BeatEvents, Initial, ClockRuns;
    hide Displaced, NeverAllRead;
    hide AllBlind, AllUnprivileged, Started;
    LandsDistinct(plan, w.tags);
    StartsInterlocked(plan, w);
    assert Equipped(plan, w) && COMMS_AGE in w.tags by { StartsEquipped(plan, L, w, s); }
    RunBlind(plan, L, w, s, beats);
    RunUnprivileged(plan, L, w, s, beats);
    FirstCycle(plan, L, w, s, beats);
    FailClosedStart(plan, w, TraceOf(plan, L, w, s, beats).cycles, guard);
    TrippedRunPublishes(plan, L, w, s, beats, i, j);
    if !L.shared { LastPrivate(plan, L, w, s, beats, i, j); }
  }

  lemma StartsEquipped(plan: Plan, L: Layout, w: World, s: Sys)
    requires Started(plan, w) && Tied(plan, L, w, s)
    ensures Equipped(plan, w) && COMMS_AGE in w.tags
  {}

  lemma LastPrivate(plan: Plan, L: Layout, w: World, s: Sys, beats: seq<Beat>, i: nat, j: nat)
    requires Equipped(plan, w) && DistinctChannels(plan.cfgs) && AllPlay(plan, L, w, s, beats) && beats != []
    requires i < |plan.cfgs| && j < |beats[|beats| - 1].names| && !L.shared
    ensures LastDisplaced(plan, L, w, s, beats, i, j) == None
  {
    hide Run, Equipped, DistinctChannels, After, Displaced, Plays;
    var before := TraceOf(plan, L, w, s, beats[..|beats| - 1]);
    PrivateDisplacesNone(plan, L, WorldAfter(plan, w, before), BusAfter(L, s, before), beats[|beats| - 1], i, j);
  }

  // --- down to the device -------------------------------------------------------------------------

  /** A trip reaches the device. A cycle that ends tripped, and in which the worker puts no other
      value on the guarded setpoint before it is read, is followed by anything but a publication;
      then a flush starts, meets no publication and no disturbance and succeeds. The register then
      holds the safe value, if the flush took it along or no earlier flush was disturbed. */
  lemma TripReachesDevice(
    plan: Plan, L: Layout, w: World, s: Sys, beats: seq<Beat>, i: nat, j: nat,
    wait: seq<Event>, now: real, mid: seq<Event>, at: real)
    requires Equipped(plan, w) && SafetyLands(plan, w.tags) && Interlocked(plan, w) && Tied(plan, L, w, s) && Initial(L, s)
    requires AllPlay(plan, L, w, s, beats) && IsGuarded(plan, beats, i, j)
    requires WorldAfter(plan, w, TraceOf(plan, L, w, s, beats)).lock.tripped
    requires !IsOther(LastDisplaced(plan, L, w, s, beats, i, j), Fin(plan.guards.safeW))
    requires NonePublish(wait) && Run(L, s, TraceOf(plan, L, w, s, beats).events + wait).phase.Idle?
    requires AllQuiescent(mid)
    requires Undisturbed(L, Apply(L, Run(L, s, TraceOf(plan, L, w, s, beats).events + wait), TakeDue(now)), mid)
    ensures var n, safe, before := plan.cfgs[i].channel, Fin(plan.guards.safeW), TraceOf(plan, L, w, s, beats).events + wait;
            var u := Run(L, s, before);
            var t := Apply(L, Run(L, Apply(L, u, TakeDue(now)), mid), EndFlush(true, at));
            t.phase.Idle? && (n in Due(u.mirror, now, L.rewrite) || Undisturbed(L, s, before)) ==>
              OnDevice(t.io, t.device, n, safe)
  {
    hide Run, Apply, Equipped, DistinctChannels, Tied, Interlocked, SafetyLands, Plays, After, BeatEvents, Initial;
    hide Displaced, Undisturbed;
    hide AllQuiescent, NonePublish, OnDevice;
    LandsDistinct(plan, w.tags);
    var events := TraceOf(plan, L, w, s, beats).events;
    TrippedRunPublishes(plan, L, w, s, beats, i, j);
    RunAppend(L, s, events, wait);
    CacheLasts(L, Run(L, s, events), wait);
    QuiescentPassDelivers(L, s, events + wait, now, mid, at);
  }

  // --- the layout it takes --------------------------------------------------------------------------

  /** Such a run has published the safe value on the guarded setpoint. */
  ghost predicate PublishedSafe(plan: Plan, L: Layout, w: World, s: Sys, beats: seq<Beat>, n: string)
    requires Equipped(plan, w) && DistinctChannels(plan.cfgs) && AllPlay(plan, L, w, s, beats)
  {
    var cache := BusAfter(L, s, TraceOf(plan, L, w, s, beats)).mirror.cache;
    n in cache && cache[n] == Fin(plan.guards.safeW)
  }

  predicate Still(e: Event) {
    IsAct(e) || e.Observe?
  }

  ghost predicate AllStill(es: seq<Event>) {
    forall i :: 0 <= i < |es| ==> Still(es[i])
  }

  lemma StillKeeps(L: Layout, s: Sys, e: Event)
    requires Still(e)
    ensures Apply(L, s, e).phase == s.phase
  {
    hide Foreground;
  }

  lemma {:induction false} StillRun(L: Layout, s: Sys, es: seq<Event>)
    requires AllStill(es)
    ensures Run(L, s, es).phase == s.phase
  {
    if es != [] {
      assert AllStill(es[..|es| - 1]) && Still(es[|es| - 1]);
      hide Apply, AllStill, Still;
      StillRun(L, s, es[..|es| - 1]);
      StillKeeps(L, Run(L, s, es[..|es| - 1]), es[|es| - 1]);
    }
  }

  /** Gaps that are empty but for one. */
  function OneGap(size: nat, k: nat, gap: seq<Event>): (gaps: seq<seq<Event>>)
    ensures |gaps| == size
  {
    seq(size, m => if m == k then gap else [])
  }

  lemma {:induction false} Ungapped(acts: seq<Event>, gaps: seq<seq<Event>>)
    requires |gaps| == |acts| && forall m :: 0 <= m < |gaps| ==> gaps[m] == []
    ensures Woven(acts, gaps) == acts
  {
    if acts != [] { Ungapped(acts[..|acts| - 1], gaps[..|acts| - 1]); }
  }

  lemma GapFirst(acts: seq<Event>, k: nat, gap: seq<Event>, i: nat)
    requires i < k < |acts|
    ensures var gaps := OneGap(|acts|, k, gap);
            Between(acts, gaps, 0, i) == acts[..i] && Between(acts, gaps, i + 1, k) == acts[i + 1..k] + gap
  {
    var gaps := OneGap(|acts|, k, gap);
    Ungapped(acts[0..i], gaps[0..i]);
    Ungapped(acts[i + 1..k], gaps[i + 1..k]);
    assert acts[0..i] == acts[..i];
    hide Woven;
  }

  /** A poll of the register right before it is read for publication. */
  lemma PollBeforeReading(L: Layout, s: Sys, acts: seq<Event>, i: nat, k: nat, n: string, d: string, v: Ext)
    requires Shaped(L, s) && L.shared && s.phase.Idle? && n in L.writable && d in L.channels && n in L.channels[d]
    requires i < k < |acts| && AllActs(acts)
    ensures Lands(L, s, acts, OneGap(|acts|, k, OnePoll(L, d, v)), i, k, n) == Some(v)
  {
    var gap := OnePoll(L, d, v);
    var u := Apply(L, Run(L, s, acts[..i]), acts[i]);
    assert AllStill(acts[..i]) && AllStill(acts[i + 1..k]) && Still(acts[i]);
    hide Run, Apply, Shaped, AllActs, AllStill, Still, Between, LastPut, OneGap, OnePoll;
    GapFirst(acts, k, gap, i);
    StillRun(L, s, acts[..i]);
    StillKeeps(L, Run(L, s, acts[..i]), acts[i]);
    StillRun(L, u, acts[i + 1..k]);
    var r := Run(L, u, acts[i + 1..k]);
    ShapedRun(L, s, acts[..i]);
    ShapedStep(L, Run(L, s, acts[..i]), acts[i]);
    ShapedRun(L, u, acts[i + 1..k]);
    ShapedHas(L, r, n);
    PollReadsIt(L, r, n, d, v);
    LastPutAfter(L, u, n, acts[i + 1..k], gap);
  }

  ghost predicate NoneEnd(es: seq<Event>) {
    forall i :: 0 <= i < |es| ==> !es[i].EndRead?
  }

  lemma {:induction false} WovenNoneEnd(acts: seq<Event>, gaps: seq<seq<Event>>)
    requires |gaps| == |acts| && AllActs(acts) && forall m :: 0 <= m < |gaps| ==> NoneEnd(gaps[m])
    ensures NoneEnd(Woven(acts, gaps))
  {
    if acts != [] {
      var k := |acts| - 1;
      assert AllActs(acts[..k]) && IsAct(acts[k]) && NoneEnd(gaps[k]);
      WovenNoneEnd(acts[..k], gaps[..k]);
    }
  }

  lemma OneGapFits(size: nat, k: nat, gap: seq<Event>)
    requires AllAside(gap) && NoneEnd(gap)
    ensures GapsAside(OneGap(size, k, gap)) && forall m :: 0 <= m < size ==> NoneEnd(OneGap(size, k, gap)[m])
  {}

  /** A cycle beside an idle worker that polls once, before the j-th setpoint is read. */
  function PollingBeat(names: seq<string>, ages: nat, running: nat, closing: nat, k: nat, gap: seq<Event>): Beat {
    Beat(0.0, map[], map[], [], seq(ages, i => Show([], 1.0)), [], OneGap(running, running, []), names, OneGap(closing, k, gap))
  }

  /** Nothing happens beside the reading. */
  ghost predicate Prompt(b: Beat) {
    b.early == [] && b.late == [] && forall k :: 0 <= k < |b.shows| ==> b.shows[k].gap == []
  }

  /** The gaps of a beat are empty but for the one before act k of its closing. */
  ghost predicate PollsOnce(plan: Plan, b: Beat, k: nat, gap: seq<Event>) {
    && Prompt(b) && b.running == OneGap(|b.running|, |b.running|, [])
    && b.closing == OneGap(|plan.cfgs| + |b.names| + 1, k, gap)
  }

  lemma SameTurn(L: Layout, s: Sys, b: Beat, a: Beat)
    requires a.now == b.now && a.scripts == b.scripts && a.seen == b.seen
    requires a.early == b.early && a.shows == b.shows && a.late == b.late && |b.shows| == |Ages(L)|
    ensures TurnOf(L, s, a) == TurnOf(L, s, b) && AfterReading(L, s, a) == AfterReading(L, s, b)
  {
    hide Run, Ages;
    SameUpTo(L, s, b, a, |Ages(L)| - 1);
  }

  lemma {:induction false} SameUpTo(L: Layout, s: Sys, b: Beat, a: Beat, k: nat)
    requires a.early == b.early && a.shows == b.shows && |b.shows| == |Ages(L)| && k < |Ages(L)|
    ensures UpTo(L, s, a, k) == UpTo(L, s, b, k) && Showing(L, s, a, k) == Showing(L, s, b, k)
  {
    hide Run, Ages;
    if k > 0 { SameUpTo(L, s, b, a, k - 1); }
  }

  /** It is a beat like any other. */
  lemma PollingPlays(plan: Plan, L: Layout, w: World, s: Sys, names: seq<string>, k: nat, gap: seq<Event>) returns (b: Beat)
    requires Equipped(plan, w) && Enumerates(names, plan.writable) && AllAside(gap) && NoneEnd(gap)
    ensures Plays(plan, L, w, s, b)
    ensures b.names == names && b.now == 0.0 && PollsOnce(plan, b, k, gap)
  {
    hide Equipped, Enumerates, AllAside, NoneEnd, GapsAside, OneGap, TurnOf, Setting;
    var a := PollingBeat(names, |Ages(L)|, 0, 0, k, gap);
    var size := |Setting(plan, w, TurnOf(L, s, a))|;
    b := PollingBeat(names, |Ages(L)|, size, |plan.cfgs| + |names| + 1, k, gap);
    SameTurn(L, s, b, a);
    OneGapFits(size, size, []);
    OneGapFits(|plan.cfgs| + |names| + 1, k, gap);
  }

  lemma {:induction false} UpToStill(L: Layout, s: Sys, b: Beat, k: nat)
    requires |b.shows| == |Ages(L)| && Prompt(b) && k < |Ages(L)|
    ensures AllStill(UpTo(L, s, b, k)) && NoneEnd(UpTo(L, s, b, k))
  {
    hide Run, Ages, AgeSeen;
    if k > 0 { UpToStill(L, s, b, k - 1); }
  }

  lemma ReadingStill(L: Layout, s: Sys, b: Beat)
    requires |b.shows| == |Ages(L)| && Prompt(b)
    ensures AfterReading(L, s, b).phase == s.phase && NoneEnd(ReadingEvents(L, s, b))
  {
    hide Run, Ages, AgeSeen;
    UpToStill(L, s, b, |Ages(L)| - 1);
    assert AllStill(ReadingEvents(L, s, b));
    StillRun(L, s, ReadingEvents(L, s, b));
  }

  lemma SettingActs(plan: Plan, w: World, c: Turn)
    requires Equipped(plan, w)
    ensures AllActs(Setting(plan, w, c))
  {
    TasksAccount(c.seen.Keys, plan, Read(plan, w, c), c, |plan.tasks|);
    hide TasksSets, Equipped;
  }

  lemma ActsStill(acts: seq<Event>)
    requires AllActs(acts)
    ensures AllStill(acts) && NoneEnd(acts)
  {}

  lemma BareRunning(plan: Plan, L: Layout, w: World, s: Sys, b: Beat, k: nat, gap: seq<Event>)
    requires Equipped(plan, w) && Plays(plan, L, w, s, b) && PollsOnce(plan, b, k, gap)
    ensures AfterRunning(plan, L, w, s, b).phase == s.phase && NoneEnd(ReadingEvents(L, s, b))
    ensures NoneEnd(Woven(Setting(plan, w, TurnOf(L, s, b)), b.running))
  {
    var r, sets := AfterReading(L, s, b), Setting(plan, w, TurnOf(L, s, b));
    assert forall m :: 0 <= m < |b.running| ==> b.running[m] == [];
    hide Run, Equipped, TurnOf, Setting, GapsAside, Enumerates, HarmlessAll, Woven, AfterReading, ReadingEvents;
    hide ReadsAges, AllActs, AllStill, NoneEnd, OneGap;
    ReadingStill(L, s, b);
    SettingActs(plan, w, TurnOf(L, s, b));
    ActsStill(sets);
    Ungapped(sets, b.running);
    StillRun(L, r, sets);
  }

  lemma PollingDisplaces(plan: Plan, L: Layout, w: World, s: Sys, b: Beat, i: nat, j: nat, d: string, v: Ext)
    requires Equipped(plan, w) && Plays(plan, L, w, s, b) && L.shared && i < |plan.cfgs| && j < |b.names|
    requires plan.cfgs[i].channel == b.names[j] && b.names[j] in L.writable && d in L.channels && b.names[j] in L.channels[d]
    requires var u := AfterRunning(plan, L, w, s, b); Shaped(L, u) && u.phase.Idle?
    requires PollsOnce(plan, b, |plan.cfgs| + j, OnePoll(L, d, v))
    ensures Displaced(plan, L, w, s, b, i, j) == Some(v)
  {
    hide Run, Equipped, TurnOf, GapsAside, Enumerates, HarmlessAll, Shaped, OneGap, AfterRunning, Resolutions, Lands;
    hide ClosingActs, Setting, AllActs, Done, CommandedFirst, OnePoll;
    var u, acts := AfterRunning(plan, L, w, s, b), Closing(plan, w, TurnOf(L, s, b), b.names);
    ClosingDone(u.live, plan.cfgs, Resolutions(plan, w, TurnOf(L, s, b)), b.names);
    PollBeforeReading(L, u, acts, i, |plan.cfgs| + j, b.names[j], d, v);
  }

  lemma PollingNoneEnd(plan: Plan, L: Layout, w: World, s: Sys, b: Beat, k: nat, gap: seq<Event>)
    requires Equipped(plan, w) && Plays(plan, L, w, s, b) && PollsOnce(plan, b, k, gap) && NoneEnd(gap) && AllAside(gap)
    ensures NoneEnd(BeatEvents(plan, L, w, s, b))
  {
    hide Run, Equipped, TurnOf, GapsAside, Enumerates, HarmlessAll, OneGap, Resolutions, ClosingActs, Setting, AllActs;
    hide Done, CommandedFirst, Woven;
    hide NoneEnd, AllAside, ReadingEvents;
    var acts := Closing(plan, w, TurnOf(L, s, b), b.names);
    BareRunning(plan, L, w, s, b, k, gap);
    ClosingDone(w.tags, plan.cfgs, Resolutions(plan, w, TurnOf(L, s, b)), b.names);
    OneGapFits(|acts|, k, gap);
    WovenNoneEnd(acts, b.closing);
    NoneEndTogether(ReadingEvents(L, s, b), Woven(Setting(plan, w, TurnOf(L, s, b)), b.running), Woven(acts, b.closing));
  }

  lemma OnePollAside(L: Layout, d: string, v: Ext)
    requires d in L.channels
    ensures AllAside(OnePoll(L, d, v)) && NoneEnd(OnePoll(L, d, v))
  {}

  lemma RunningShaped(plan: Plan, L: Layout, w: World, s: Sys, b: Beat)
    requires Equipped(plan, w) && Tied(plan, L, w, s) && Plays(plan, L, w, s, b)
    ensures Shaped(L, AfterRunning(plan, L, w, s, b))
  {
    hide *;
    RunningTies(plan, L, w, s, b);
  }

  /** A beat that polls once publishes the register's old content. */
  lemma PollingShows(plan: Plan, L: Layout, w: World, s: Sys, b: Beat, i: nat, j: nat, d: string, v: Ext)
    requires Equipped(plan, w) && Tied(plan, L, w, s) && Plays(plan, L, w, s, b) && L.shared && s.phase.Idle?
    requires i < |plan.cfgs| && j < |b.names| && plan.cfgs[i].channel == b.names[j] && b.names[j] in L.writable
    requires d in L.channels && b.names[j] in L.channels[d] && PollsOnce(plan, b, |plan.cfgs| + j, OnePoll(L, d, v))
    ensures NoneEnd(BeatEvents(plan, L, w, s, b)) && Displaced(plan, L, w, s, b, i, j) == Some(v)
  {
    hide *;
    OnePollAside(L, d, v);
    BareRunning(plan, L, w, s, b, |plan.cfgs| + j, OnePoll(L, d, v));
    RunningShaped(plan, L, w, s, b);
    PollingDisplaces(plan, L, w, s, b, i, j, d, v);
    PollingNoneEnd(plan, L, w, s, b, |plan.cfgs| + j, OnePoll(L, d, v));
  }

  lemma NoneEndTogether(a: seq<Event>, b: seq<Event>, c: seq<Event>)
    requires NoneEnd(a) && NoneEnd(b) && NoneEnd(c)
    ensures NoneEnd(a + b + c)
  {}

  lemma OneBeat(plan: Plan, L: Layout, w: World, s: Sys, b: Beat)
    requires Equipped(plan, w) && DistinctChannels(plan.cfgs) && Plays(plan, L, w, s, b)
    ensures AllPlay(plan, L, w, s, [b]) && TraceOf(plan, L, w, s, [b]).events == BeatEvents(plan, L, w, s, b)
    ensures SomeUnread(L, Run(L, s, UpTo(L, s, b, 0))) ==> NeverAllRead(plan, L, w, s, [b])
    ensures forall i: nat, j: nat :: i < |plan.cfgs| && j < |b.names| ==>
              LastDisplaced(plan, L, w, s, [b], i, j) == Displaced(plan, L, w, s, b, i, j)
  {
    hide Equipped, DistinctChannels, After, BeatEvents, CycleOf, Plays, Displaced, SomeUnread;
    assert [b][..0] == [];
    NoBeats(plan, L, w, s);
    assert [] + BeatEvents(plan, L, w, s, b) == BeatEvents(plan, L, w, s, b);
  }

  lemma NothingReadYet(L: Layout, s: Sys)
    requires Initial(L, s) && L.channels != map[]
    ensures SomeUnread(L, Run(L, s, [])) && s.phase.Idle?
  {
    var d :| d in L.channels;
    assert d !in Run(L, s, []).past.stamps;
  }

  lemma SharedStartFails(
    plan: Plan, L: Layout, w: World, s: Sys, guard: nat, names: seq<string>, i: nat, j: nat, d: string, v: Ext)
    returns (beats: seq<Beat>)
    requires Started(plan, w) && SafetyLands(plan, w.tags) && Tied(plan, L, w, s) && !Commandable(w.tags, COMMS_AGE)
    requires guard < |plan.tasks| && Scan.Guardian in plan.tasks[guard].controllers && Initial(L, s) && L.shared
    requires Enumerates(names, plan.writable) && i < |plan.cfgs| && j < |names| && plan.cfgs[i].channel == names[j]
    requires names[j] in plan.guards.guarded && d in L.channels && names[j] in L.channels[d] && v != Fin(plan.guards.safeW)
    ensures Starting(plan, L, w, s, beats, i, j) && !PublishedSafe(plan, L, w, s, beats, names[j])
  {
    hide Run, Equipped, DistinctChannels, Tied, SafetyLands, Started, Initial, After, BeatEvents, Displaced, Plays;
    hide CycleOf, Enumerates, SomeUnread, ClockRuns;
    hide OnePoll, OneGap, NoneEnd, AllAside, Setting, TurnOf;
    LandsDistinct(plan, w.tags);
    StartsEquipped(plan, L, w, s);
    TiedWritable(plan, L, w, s, names, j);
    NothingReadYet(L, s);
    OnePollAside(L, d, v);
    var b := PollingPlays(plan, L, w, s, names, |plan.cfgs| + j, OnePoll(L, d, v));
    PollingShows(plan, L, w, s, b, i, j, d, v);
    PlaysShows(plan, L, w, s, b);
    assert UpTo(L, s, b, 0) == [];
    OneBeat(plan, L, w, s, b);
    NeverTells(BeatEvents(plan, L, w, s, b));
    beats := [b];
    SafeUntilAllRead(plan, L, w, s, beats, guard, i, j);
  }

  lemma NeverTells(es: seq<Event>)
    requires NoneEnd(es)
    ensures ClockRuns(es)
  {}

  /** The start fails closed, on every run, exactly with a private store. */
  lemma SafeStartIffPrivate(
    plan: Plan, L: Layout, w: World, s: Sys, guard: nat, names: seq<string>, i: nat, j: nat, d: string, v: Ext)
    requires Started(plan, w) && SafetyLands(plan, w.tags) && Tied(plan, L, w, s) && !Commandable(w.tags, COMMS_AGE)
    requires guard < |plan.tasks| && Scan.Guardian in plan.tasks[guard].controllers && Initial(L, s)
    requires Enumerates(names, plan.writable) && i < |plan.cfgs| && j < |names| && plan.cfgs[i].channel == names[j]
    requires names[j] in plan.guards.guarded && d in L.channels && names[j] in L.channels[d] && v != Fin(plan.guards.safeW)
    ensures (forall beats, m: nat :: Starting(plan, L, w, s, beats, i, m) ==> PublishedSafe(plan, L, w, s, beats, names[j]))
            <==> !L.shared
  {
    hide Run, Equipped, DistinctChannels, Tied, SafetyLands, Started, Initial, AllPlay, NeverAllRead, ClockRuns, TraceOf;
    hide Enumerates;
    StartsEquipped(plan, L, w, s);
    LandsDistinct(plan, w.tags);
    if L.shared {
      var beats := SharedStartFails(plan, L, w, s, guard, names, i, j, d, v);
    } else {
      forall beats, m: nat | Starting(plan, L, w, s, beats, i, m) ensures PublishedSafe(plan, L, w, s, beats, names[j]) {
        SafeUntilAllRead(plan, L, w, s, beats, guard, i, m);
      }
    }
  }

  lemma TiedWritable(plan: Plan, L: Layout, w: World, s: Sys, names: seq<string>, j: nat)
    requires Tied(plan, L, w, s) && Enumerates(names, plan.writable) && j < |names|
    ensures names[j] in L.writable
  {}
}
