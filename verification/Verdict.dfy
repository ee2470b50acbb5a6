/** The interlock's verdict against the run it guards: when an execution trips, told by the polls and
    the writes the bus has made and by the values of the watched tags
    (src/pyems/controllers/safety.py, src/pyems/drivers/cached.py). */
module Verdict {
  import opened Num
  import opened Channels
  import opened CachedDriver
  import opened Interleaving
  import opened SetpointFlow
  import opened ReadFlow
  import opened Weaving
  import opened Allocator
  import opened Safety
  import opened Scan
  import opened Assembled

  // --- what the bus has done ----------------------------------------------------------------------

  /** A poll ends here in which the device was read fully. */
  predicate GoodPoll(L: Layout, s: Sys, e: Event, d: string) {
    e.EndRead? && ReadOver(L, s.phase) && d in s.phase.polled && d !in s.phase.failed
  }

  /** When the device's last fully good poll ended. */
  function LastGood(L: Layout, s: Sys, es: seq<Event>, d: string): Option<real> {
    if es == [] then None
    else
      var init, last := es[..|es| - 1], es[|es| - 1];
      if GoodPoll(L, Run(L, s, init), last, d) then Some(last.at) else LastGood(L, s, init, d)
  }

  /** A flush or a command transaction ends here and is reported delivered. */
  predicate GoodWrite(s: Sys, e: Event) {
    || (e.EndFlush? && e.ok && FlushOver(s.phase, true))
    || (e.EndCommands? && e.ok && CommandsOver(s.phase, true))
  }

  function LastWrite(L: Layout, s: Sys, es: seq<Event>): Option<real> {
    if es == [] then None
    else
      var init, last := es[..|es| - 1], es[|es| - 1];
      if GoodWrite(Run(L, s, init), last) then Some(last.at) else LastWrite(L, s, init)
  }

  /** The clock never shows zero when a write ends either. */
  ghost predicate WritesTimed(es: seq<Event>) {
    forall i :: 0 <= i < |es| && (es[i].EndFlush? || es[i].EndCommands?) ==> es[i].at > 0.0
  }

  lemma TimedBefore(a: seq<Event>, b: seq<Event>)
    requires WritesTimed(a + b)
    ensures WritesTimed(a)
  {
    forall i | 0 <= i < |a| && (a[i].EndFlush? || a[i].EndCommands?) ensures a[i].at > 0.0 {
      assert (a + b)[i] == a[i];
    }
  }

  lemma StampStep(L: Layout, s: Sys, e: Event, d: string)
    ensures var before, after := s.past.stamps, Apply(L, s, e).past.stamps;
            if GoodPoll(L, s, e, d) then d in after && after[d] == e.at
            else (d in after <==> d in before) && (d in before ==> after[d] == before[d])
  {
    hide Apply, ReadOver;
    if !e.EndRead? {
      PollsKept(L, s, e);
    } else if ReadOver(L, s.phase) {
      EndReadStep(L, s, e.at);
      assert s.phase.Reading? by { OverReads(L, s.phase); }
    } else {
      NotOver(L, s, e.at);
    }
  }

  lemma OverReads(L: Layout, p: Phase)
    requires ReadOver(L, p)
    ensures p.Reading?
  {}

  lemma {:induction false} GoodIsStamped(L: Layout, s: Sys, es: seq<Event>, d: string)
    requires Initial(L, s)
    ensures var good, stamps := LastGood(L, s, es, d), Run(L, s, es).past.stamps;
            (good.Some? <==> d in stamps) && (good.Some? ==> stamps[d] == good.value)
  {
    if es != [] {
      hide Initial, Apply, GoodPoll;
      GoodIsStamped(L, s, es[..|es| - 1], d);
      StampStep(L, Run(L, s, es[..|es| - 1]), es[|es| - 1], d);
    }
  }

  lemma WriteStep(L: Layout, s: Sys, e: Event)
    ensures Apply(L, s, e).lastWriteOk == if GoodWrite(s, e) then e.at else s.lastWriteOk
  {
    hide Apply, FlushOver, CommandsOver, Settled, Tried;
    match e
    case EndFlush(ok, at) => FlushStamps(L, s, ok, at);
    case EndCommands(ok, at) => CommandsStamp(L, s, ok, at);
    case _ => WriteStampKept(L, s, e);
  }

  lemma FlushStamps(L: Layout, s: Sys, ok: bool, at: real)
    ensures Apply(L, s, EndFlush(ok, at)).lastWriteOk == if ok && FlushOver(s.phase, true) then at else s.lastWriteOk
  {
    hide Apply, FlushOver, Settled;
    EndFlushStep(L, s, ok, at);
  }

  lemma CommandsStamp(L: Layout, s: Sys, ok: bool, at: real)
    ensures Apply(L, s, EndCommands(ok, at)).lastWriteOk == if ok && CommandsOver(s.phase, true) then at else s.lastWriteOk
  {
    hide Apply, CommandsOver;
    EndCommandsStep(L, s, ok, at);
  }

  lemma WriteStampKept(L: Layout, s: Sys, e: Event)
    requires !e.EndFlush? && !e.EndCommands?
    ensures Apply(L, s, e).lastWriteOk == s.lastWriteOk
  {
    hide Foreground, CommandPass, FlushPass, ReadPass;
  }

  lemma {:induction false} WriteIsStamped(L: Layout, s: Sys, es: seq<Event>)
    requires Initial(L, s) && WritesTimed(es)
    ensures var last := LastWrite(L, s, es);
            Run(L, s, es).lastWriteOk == (if last.Some? then last.value else 0.0) && (last.Some? ==> last.value > 0.0)
  {
    if es != [] {
      var init := es[..|es| - 1];
      assert es == init + [es[|es| - 1]];
      TimedBefore(init, [es[|es| - 1]]);
      hide Initial, Apply;
      WriteIsStamped(L, s, init);
      WriteStep(L, Run(L, s, init), es[|es| - 1]);
    }
  }

  // --- ages ------------------------------------------------------------------------------------------

  /** It never happened, or longer ago than the limit. */
  predicate Overdue(last: Option<real>, limit: real, at: real) {
    last.None? || at - last.value > limit
  }

  lemma OverdueAge(last: Option<real>, stamp: real, limit: real, at: real)
    requires if last.Some? then stamp == last.value > 0.0 else stamp == 0.0
    ensures Lt(Fin(limit), AgeOf(stamp, at)) <==> Overdue(last, limit, at)
  {}

  lemma DeviceOverdue(L: Layout, s: Sys, es: seq<Event>, d: string, limit: real, at: real)
    requires Initial(L, s) && ClockRuns(es) && d in L.channels
    ensures var lastOk := Run(L, s, es).lastOk;
            d in lastOk && (Lt(Fin(limit), AgeOf(lastOk[d], at)) <==> Overdue(LastGood(L, s, es, d), limit, at))
  {
    hide Run, Initial, ClockRuns, LastGood;
    GoodIsStamped(L, s, es, d);
    StampsRun(L, s, es);
    OverdueAge(LastGood(L, s, es, d), Run(L, s, es).lastOk[d], limit, at);
  }

  /** Nothing to read from, or some device's last fully good poll is missing or too long ago. */
  ghost predicate ReadingsOverdue(L: Layout, s: Sys, es: seq<Event>, limit: real, at: real) {
    L.channels == map[] || exists d :: d in L.channels && Overdue(LastGood(L, s, es, d), limit, at)
  }

  lemma GlobalOverdue(L: Layout, s: Sys, es: seq<Event>, limit: real, at: real)
    requires Initial(L, s) && ClockRuns(es)
    ensures Lt(Fin(limit), GlobalAge(Run(L, s, es).lastOk, at)) <==> ReadingsOverdue(L, s, es, limit, at)
  {
    hide Run, Initial, ClockRuns, LastGood, Overdue, AgeOf, GlobalAge;
    var lastOk := Run(L, s, es).lastOk;
    StampsRun(L, s, es);
    assert lastOk.Keys == L.channels.Keys;
    forall d | d in L.channels
      ensures d in lastOk && (Lt(Fin(limit), AgeOf(lastOk[d], at)) <==> Overdue(LastGood(L, s, es, d), limit, at))
    {
      DeviceOverdue(L, s, es, d, limit, at);
    }
    if L.channels == map[] {
      assert lastOk == map[];
    } else {
      StalestAbove(lastOk, limit, at);
    }
  }

  lemma StalestAbove(lastOk: map<string, real>, limit: real, at: real)
    requires lastOk != map[]
    ensures Lt(Fin(limit), GlobalAge(lastOk, at)) <==> exists d :: d in lastOk && Lt(Fin(limit), AgeOf(lastOk[d], at))
  {
    assert IsAgeOf(GlobalAge(lastOk, at), lastOk, lastOk.Keys, at);
    assert lastOk.Keys != {};
    hide GlobalAge, AgeOf;
  }

  lemma WriteOverdue(L: Layout, s: Sys, es: seq<Event>, limit: real, at: real)
    requires Initial(L, s) && WritesTimed(es)
    ensures Lt(Fin(limit), AgeOf(Run(L, s, es).lastWriteOk, at)) <==> Overdue(LastWrite(L, s, es), limit, at)
  {
    hide Run, Initial, WritesTimed, LastWrite;
    WriteIsStamped(L, s, es);
    OverdueAge(LastWrite(L, s, es), Run(L, s, es).lastWriteOk, limit, at);
  }

  // --- what an execution judges ------------------------------------------------------------------------

  /** The tags an execution of the interlock finds in this beat. */
  ghost function Judged(L: Layout, w: World, s: Sys, b: Beat): Tags
    requires |b.shows| == |Ages(L)|
  {
    ObservedAll(ObservedAll(w.tags, TurnOf(L, s, b).inputs), b.seen)
  }

  lemma JudgedAge(plan: Plan, L: Layout, w: World, s: Sys, b: Beat, k: nat)
    requires Equipped(plan, w) && Tied(plan, L, w, s) && Plays(plan, L, w, s, b) && k < |Ages(L)|
    ensures var tag := AgeTagOf(Ages(L)[k]);
            tag in Judged(L, w, s, b) && Judged(L, w, s, b)[tag].value == AgeSeen(L, s, b, k)
  {
    hide Equipped, Setting, HarmlessAll, ReadsAges, Enumerates, GapsAside, TurnOf, AgeSeen, Shaped, SameOff, Ages, AgeTagOf;
    AgesRead(plan, L, w, s, b, k);
  }

  /** A device's own limit is exceeded. */
  ghost predicate OverOwnLimit(L: Layout, s: Sys, b: Beat, limits: map<string, real>, i: nat)
    requires |b.shows| == |Ages(L)| && i < |L.aged|
  {
    AgeTag(L.aged[i]) in limits && Lt(Fin(limits[AgeTag(L.aged[i])]), AgeSeen(L, s, b, i + 2))
  }

  /** Every limit is some device's own. */
  ghost predicate LimitsOwned(L: Layout, limits: map<string, real>) {
    forall tag :: tag in limits ==> exists i :: 0 <= i < |L.aged| && tag == AgeTag(L.aged[i])
  }

  lemma LimitsJudged(plan: Plan, L: Layout, w: World, s: Sys, b: Beat)
    requires Equipped(plan, w) && Tied(plan, L, w, s) && Plays(plan, L, w, s, b)
    requires Readable(plan.guards, Judged(L, w, s, b)) && LimitsOwned(L, plan.guards.ageLimits)
    ensures var limits, tags := plan.guards.ageLimits, Judged(L, w, s, b);
            (exists ch :: ch in limits && Lt(Fin(limits[ch]), tags[ch].value)) <==>
            exists i :: 0 <= i < |L.aged| && OverOwnLimit(L, s, b, limits, i)
  {
    hide Equipped, Tied, Judged, AgeSeen, AgeTag, Lt, TurnOf, Setting, ReadsAges, GapsAside, Enumerates, HarmlessAll;
    var limits, tags := plan.guards.ageLimits, Judged(L, w, s, b);
    forall i | 0 <= i < |L.aged|
      ensures AgeTag(L.aged[i]) in tags && tags[AgeTag(L.aged[i])].value == AgeSeen(L, s, b, i + 2)
    {
      assert Ages(L)[i + 2] == One(L.aged[i]);
      JudgedAge(plan, L, w, s, b, i + 2);
    }
    if ch :| ch in limits && Lt(Fin(limits[ch]), tags[ch].value) {
      var i :| 0 <= i < |L.aged| && ch == AgeTag(L.aged[i]);
      assert OverOwnLimit(L, s, b, limits, i);
    }
    if i :| 0 <= i < |L.aged| && OverOwnLimit(L, s, b, limits, i) {
      assert Lt(Fin(limits[AgeTag(L.aged[i])]), tags[AgeTag(L.aged[i])].value);
    }
  }

  /** The verdict in terms of the ages the cycle has read. */
  lemma FaultyByAges(plan: Plan, L: Layout, w: World, s: Sys, b: Beat, frozen: seq<string>)
    requires Equipped(plan, w) && Tied(plan, L, w, s) && Plays(plan, L, w, s, b)
    requires Readable(plan.guards, Judged(L, w, s, b)) && LimitsOwned(L, plan.guards.ageLimits)
    ensures var g := plan.guards;
            Faulty(g, Judged(L, w, s, b), frozen) <==>
            || Lt(Fin(g.maxAge), AgeSeen(L, s, b, 0))
            || (exists i :: 0 <= i < |L.aged| && OverOwnLimit(L, s, b, g.ageLimits, i))
            || (g.maxWriteAge.Some? && Lt(Fin(g.maxWriteAge.value), AgeSeen(L, s, b, 1)))
            || frozen != []
  {
    hide Equipped, Tied, Plays, Judged, AgeSeen, AgeTag, Lt, LimitsOwned, OverOwnLimit;
    JudgedAge(plan, L, w, s, b, 0);
    JudgedAge(plan, L, w, s, b, 1);
    LimitsJudged(plan, L, w, s, b);
  }

  /** The world and the bus before the last beat. */
  ghost function WorldBefore(plan: Plan, L: Layout, w: World, s: Sys, beats: seq<Beat>): (before: World)
    requires Equipped(plan, w) && DistinctChannels(plan.cfgs) && AllPlay(plan, L, w, s, beats) && beats != []
    ensures Equipped(plan, before)
  {
    WorldAfter(plan, w, TraceOf(plan, L, w, s, beats[..|beats| - 1]))
  }

  ghost function BusBefore(plan: Plan, L: Layout, w: World, s: Sys, beats: seq<Beat>): Sys
    requires Equipped(plan, w) && DistinctChannels(plan.cfgs) && AllPlay(plan, L, w, s, beats) && beats != []
  {
    BusAfter(L, s, TraceOf(plan, L, w, s, beats[..|beats| - 1]))
  }

  // --- what the executions have looked at ------------------------------------------------------------

  /** The executions of a run: when each ran, and the tags it found. */
  ghost function LooksOf(plan: Plan, L: Layout, w: World, s: Sys, beats: seq<Beat>): (looks: seq<Look>)
    requires Equipped(plan, w) && DistinctChannels(plan.cfgs) && AllPlay(plan, L, w, s, beats) && plan.tasks != []
    ensures AllSee(looks, plan.guards.watched)
  {
    hide After, Run, Plays, CycleOf, BeatEvents, Equipped, DistinctChannels;
    if beats == [] then []
    else
      LooksOf(plan, L, w, s, beats[..|beats| - 1])
      + LookIn(plan, L, WorldBefore(plan, L, w, s, beats), BusBefore(plan, L, w, s, beats), beats[|beats| - 1])
  }

  /** The execution in one beat, if one is due. */
  ghost function LookIn(plan: Plan, L: Layout, w: World, s: Sys, b: Beat): (looks: seq<Look>)
    requires Equipped(plan, w) && Plays(plan, L, w, s, b) && plan.tasks != []
    ensures AllSee(looks, plan.guards.watched)
  {
    JudgedReadable(plan, L, w, s, b);
    if b.now >= w.nextRuns[0] then [Look(b.now, Judged(L, w, s, b))] else []
  }

  /** The interlock runs alone in the first task, and in no other. */
  ghost predicate GuardFirst(plan: Plan) {
    && plan.tasks != [] && plan.tasks[0].controllers == [Scan.Guardian]
    && forall i :: 0 < i < |plan.tasks| ==> Scan.Guardian !in plan.tasks[i].controllers
  }

  /** What the interlock remembers after some executions. */
  function MemoryOf(g: Guards, looks: seq<Look>): Memory
    requires AllSee(looks, g.watched)
  {
    if g.maxFrozen.None? then map[] else MemoryAfter(g.watched, g.maxFrozen.value, looks)
  }

  lemma JudgedReadable(plan: Plan, L: Layout, w: World, s: Sys, b: Beat)
    requires Equipped(plan, w) && |b.shows| == |Ages(L)|
    ensures Readable(plan.guards, Judged(L, w, s, b))
  {
    hide TurnOf, ObservedAll, Ages;
  }

  lemma MemoryGoesOn(g: Guards, looks: seq<Look>, look: Look)
    requires AllSee(looks, g.watched) && AllIn(g.watched, look.tags)
    ensures AllSee(looks + [look], g.watched)
    ensures MemoryOf(g, looks + [look]) == Inspected(g, MemoryOf(g, looks), look.tags, look.now).memory
  {
    assert (looks + [look])[..|looks|] == looks;
  }

  /** A beat's verdict: a due execution judges what the beat has read, and remembers it. */
  lemma BeatLock(plan: Plan, L: Layout, w: World, s: Sys, b: Beat)
    requires Equipped(plan, w) && DistinctChannels(plan.cfgs) && Plays(plan, L, w, s, b) && GuardFirst(plan)
    ensures |b.shows| == |Ages(L)| && w.nextRuns != [] && Readable(plan.guards, Judged(L, w, s, b))
    ensures Stepped(plan, w, CycleOf(plan, L, w, s, b)).lock ==
            if b.now >= w.nextRuns[0] then SafetyVerdict(plan.guards, w.lock, Judged(L, w, s, b), b.now) else w.lock
  {
    hide DistinctChannels, Stepped, SafetyVerdict, BeforePublish, AfterReading, Readout, Setting, Ages, Readable;
    hide GapsAside, Enumerates, HarmlessAll, ReadsAges;
    JudgedReadable(plan, L, w, s, b);
    VerdictOnThisCycle(plan, w, CycleOf(plan, L, w, s, b));
  }

  lemma BeatRemembers(plan: Plan, L: Layout, w: World, s: Sys, b: Beat, looks: seq<Look>)
    requires Equipped(plan, w) && DistinctChannels(plan.cfgs) && Plays(plan, L, w, s, b) && GuardFirst(plan)
    requires AllSee(looks, plan.guards.watched) && w.lock.memory == MemoryOf(plan.guards, looks)
    ensures AllSee(looks + LookIn(plan, L, w, s, b), plan.guards.watched)
    ensures Stepped(plan, w, CycleOf(plan, L, w, s, b)).lock.memory ==
            MemoryOf(plan.guards, looks + LookIn(plan, L, w, s, b))
  {
    hide Equipped, DistinctChannels, Plays, Stepped, Judged, Inspected, MemoryOf, Faulty, CycleOf, Readable, AllSee, Ages;
    BeatLock(plan, L, w, s, b);
    if b.now >= w.nextRuns[0] {
      DueLooks(plan, L, w, s, b);
      MemoryGoesOn(plan.guards, looks, Look(b.now, Judged(L, w, s, b)));
    } else {
      assert looks + [] == looks;
    }
  }

  lemma DueLooks(plan: Plan, L: Layout, w: World, s: Sys, b: Beat)
    requires Equipped(plan, w) && Plays(plan, L, w, s, b) && plan.tasks != [] && b.now >= w.nextRuns[0]
    ensures LookIn(plan, L, w, s, b) == [Look(b.now, Judged(L, w, s, b))]
    ensures AllIn(plan.guards.watched, Judged(L, w, s, b))
  {
    hide Equipped, Judged, TurnOf, Setting, Ages, GapsAside, Enumerates, HarmlessAll, ReadsAges;
    JudgedReadable(plan, L, w, s, b);
  }

  /** What the interlock remembers is what its executions have looked at. */
  lemma {:induction false} RemembersLooks(plan: Plan, L: Layout, w: World, s: Sys, beats: seq<Beat>)
    requires Equipped(plan, w) && DistinctChannels(plan.cfgs) && AllPlay(plan, L, w, s, beats) && GuardFirst(plan)
    requires w.lock.memory == map[]
    ensures WorldAfter(plan, w, TraceOf(plan, L, w, s, beats)).lock.memory ==
            MemoryOf(plan.guards, LooksOf(plan, L, w, s, beats))
  {
    hide Run, Equipped, DistinctChannels, Plays, After, Stepped, CycleOf, BeatEvents, MemoryOf, LookIn;
    if beats != [] {
      var init := beats[..|beats| - 1];
      var before := TraceOf(plan, L, w, s, init);
      RemembersLooks(plan, L, w, s, init);
      OneMoreBeat(plan, L, w, s, beats);
      BeatRemembers(plan, L, WorldAfter(plan, w, before), BusAfter(L, s, before), beats[|beats| - 1],
                    LooksOf(plan, L, w, s, init));
    } else {
      NoBeats(plan, L, w, s);
      NothingLooked(plan.guards);
    }
  }

  lemma NothingLooked(g: Guards)
    ensures MemoryOf(g, []) == map[]
  {}

  /** The scan clock does not go back. */
  ghost predicate InOrder(beats: seq<Beat>) {
    forall i, j :: 0 <= i < j < |beats| ==> beats[i].now <= beats[j].now
  }

  ghost predicate AllBy(looks: seq<Look>, now: real) {
    forall i :: 0 <= i < |looks| ==> looks[i].now <= now
  }

  lemma {:induction false} LooksInTime(plan: Plan, L: Layout, w: World, s: Sys, beats: seq<Beat>, now: real)
    requires Equipped(plan, w) && DistinctChannels(plan.cfgs) && AllPlay(plan, L, w, s, beats) && plan.tasks != []
    requires InOrder(beats) && (beats != [] ==> beats[|beats| - 1].now <= now)
    ensures InTime(LooksOf(plan, L, w, s, beats)) && AllBy(LooksOf(plan, L, w, s, beats), now)
  {
    hide Run, Equipped, DistinctChannels, Plays, After, BeatEvents, CycleOf, Judged;
    if beats != [] {
      LooksInTime(plan, L, w, s, beats[..|beats| - 1], beats[|beats| - 1].now);
    }
  }

  // --- frozen tags -------------------------------------------------------------------------------------

  /** The tag has held one value since an execution more than the limit before the last one. */
  ghost predicate HeldTooLong(looks: seq<Look>, ch: string, limit: real) {
    looks != [] && exists i: nat :: HeldFrom(looks, ch, i) && looks[|looks| - 1].now - looks[i].now > limit
  }

  ghost predicate Frozen(g: Guards, looks: seq<Look>) {
    g.maxFrozen.Some? && exists ch :: ch in g.watched && HeldTooLong(looks, ch, g.maxFrozen.value)
  }

  lemma FrozenTold(g: Guards, looks: seq<Look>, look: Look)
    requires g.maxFrozen.Some? ==> g.maxFrozen.value >= 0.0
    requires AllSee(looks, g.watched) && AllIn(g.watched, look.tags) && InTime(looks + [look])
    ensures Inspected(g, MemoryOf(g, looks), look.tags, look.now).frozen != [] <==> Frozen(g, looks + [look])
  {
    var all := looks + [look];
    assert all[..|all| - 1] == looks && all[|all| - 1] == look;
    if g.maxFrozen.Some? {
      var frozen := Inspected(g, MemoryOf(g, looks), look.tags, look.now).frozen;
      hide Inspected, HeldFrom;
      forall ch ensures ch in frozen <==> ch in g.watched && HeldTooLong(all, ch, g.maxFrozen.value) {
        FrozenIffHeldTooLong(g, all, ch);
      }
      hide HeldTooLong;
      if frozen != [] { assert frozen[0] in frozen; }
    }
  }

  // --- the verdict ---------------------------------------------------------------------------------------

  /** All that has happened on the bus when the last beat reads its k-th age. */
  ghost function Sight(plan: Plan, L: Layout, w: World, s: Sys, beats: seq<Beat>, k: nat): seq<Event>
    requires Equipped(plan, w) && DistinctChannels(plan.cfgs) && AllPlay(plan, L, w, s, beats) && beats != []
    requires |beats[|beats| - 1].shows| == |Ages(L)| && k < |Ages(L)|
  {
    TraceOf(plan, L, w, s, beats[..|beats| - 1]).events
    + UpTo(L, BusBefore(plan, L, w, s, beats), beats[|beats| - 1], k)
  }

  /** No clock of the run shows zero: zero is the stamp of "never". */
  ghost predicate Timed(es: seq<Event>) {
    ClockRuns(es) && WritesTimed(es)
  }

  lemma TimedUpTo(a: seq<Event>, b: seq<Event>, rest: seq<Event>)
    requires Timed(a + (b + rest))
    ensures Timed(a + b)
  {
    assert a + (b + rest) == (a + b) + rest;
    ClockBefore(a + b, rest);
    TimedBefore(a + b, rest);
  }

  lemma SightTimed(plan: Plan, L: Layout, w: World, s: Sys, beats: seq<Beat>, k: nat)
    requires Equipped(plan, w) && DistinctChannels(plan.cfgs) && AllPlay(plan, L, w, s, beats) && beats != []
    requires Timed(TraceOf(plan, L, w, s, beats).events) && k < |Ages(L)| && |beats[|beats| - 1].shows| == |Ages(L)|
    ensures Timed(Sight(plan, L, w, s, beats, k))
    ensures var s' := BusBefore(plan, L, w, s, beats);
            Run(L, s, Sight(plan, L, w, s, beats, k)) == Run(L, s', UpTo(L, s', beats[|beats| - 1], k))
  {
    hide Run, Equipped, DistinctChannels, Plays, After, BeatEvents, CycleOf, Timed, UpTo, Ages;
    var before, b := TraceOf(plan, L, w, s, beats[..|beats| - 1]), beats[|beats| - 1];
    var w', s' := WorldAfter(plan, w, before), BusAfter(L, s, before);
    var rest := BeatStarts(plan, L, w', s', b, k);
    TimedUpTo(before.events, UpTo(L, s', b, k), rest);
    RunAppend(L, s, before.events, UpTo(L, s', b, k));
  }

  /** A device is over its own limit: its last fully good poll is missing or too long ago. */
  ghost predicate DeviceLost(plan: Plan, L: Layout, w: World, s: Sys, beats: seq<Beat>, i: nat)
    requires Equipped(plan, w) && DistinctChannels(plan.cfgs) && AllPlay(plan, L, w, s, beats) && beats != []
    requires |beats[|beats| - 1].shows| == |Ages(L)| && i < |L.aged|
  {
    var d, limits := L.aged[i], plan.guards.ageLimits;
    && AgeTag(d) in limits
    && Overdue(LastGood(L, s, Sight(plan, L, w, s, beats, i + 2), d), limits[AgeTag(d)], beats[|beats| - 1].shows[i + 2].at)
  }

  /** The last delivered write is missing or too long ago. */
  ghost predicate WritesLost(plan: Plan, L: Layout, w: World, s: Sys, beats: seq<Beat>)
    requires Equipped(plan, w) && DistinctChannels(plan.cfgs) && AllPlay(plan, L, w, s, beats) && beats != []
    requires |beats[|beats| - 1].shows| == |Ages(L)|
  {
    && plan.guards.maxWriteAge.Some?
    && Overdue(LastWrite(L, s, Sight(plan, L, w, s, beats, 1)), plan.guards.maxWriteAge.value, beats[|beats| - 1].shows[1].at)
  }

  lemma AgesTold(plan: Plan, L: Layout, w: World, s: Sys, beats: seq<Beat>)
    requires Equipped(plan, w) && DistinctChannels(plan.cfgs) && AllPlay(plan, L, w, s, beats) && beats != []
    requires Timed(TraceOf(plan, L, w, s, beats).events) && Initial(L, s) && Dates(L)
    requires |beats[|beats| - 1].shows| == |Ages(L)|
    ensures var g, b := plan.guards, beats[|beats| - 1];
            var s' := BusBefore(plan, L, w, s, beats);
            && (Lt(Fin(g.maxAge), AgeSeen(L, s', b, 0)) <==>
                ReadingsOverdue(L, s, Sight(plan, L, w, s, beats, 0), g.maxAge, b.shows[0].at))
            && (g.maxWriteAge.Some? && Lt(Fin(g.maxWriteAge.value), AgeSeen(L, s', b, 1)) <==>
                WritesLost(plan, L, w, s, beats))
            && forall i :: 0 <= i < |L.aged| ==>
                 (OverOwnLimit(L, s', b, g.ageLimits, i) <==> DeviceLost(plan, L, w, s, beats, i))
  {
    hide Run, Equipped, DistinctChannels, AllPlay, Initial, BeatEvents, CycleOf, UpTo, Sight, Ages, TraceOf, ReadingsOverdue;
    hide Overdue, LastGood, LastWrite, AgeOf, Lt, GlobalAge, AgeTag, ClockRuns, WritesTimed;
    var g, b := plan.guards, beats[|beats| - 1];
    SightTimed(plan, L, w, s, beats, 0);
    GlobalOverdue(L, s, Sight(plan, L, w, s, beats, 0), g.maxAge, b.shows[0].at);
    SightTimed(plan, L, w, s, beats, 1);
    if g.maxWriteAge.Some? {
      WriteOverdue(L, s, Sight(plan, L, w, s, beats, 1), g.maxWriteAge.value, b.shows[1].at);
    }
    forall i | 0 <= i < |L.aged|
      ensures OverOwnLimit(L, BusBefore(plan, L, w, s, beats), b, g.ageLimits, i) <==>
              DeviceLost(plan, L, w, s, beats, i)
    {
      SightTimed(plan, L, w, s, beats, i + 2);
      if AgeTag(L.aged[i]) in g.ageLimits {
        DeviceOverdue(L, s, Sight(plan, L, w, s, beats, i + 2), L.aged[i], g.ageLimits[AgeTag(L.aged[i])], b.shows[i + 2].at);
      }
    }
  }

  /** What the last beat's execution says. */
  lemma LastVerdict(plan: Plan, L: Layout, w: World, s: Sys, beats: seq<Beat>)
    requires Equipped(plan, w) && SafetyLands(plan, w.tags) && Interlocked(plan, w) && Tied(plan, L, w, s)
    requires AllPlay(plan, L, w, s, beats) && beats != [] && GuardFirst(plan) && InOrder(beats)
    requires w.lock.memory == map[] && LimitsOwned(L, plan.guards.ageLimits)
    requires plan.guards.maxFrozen.Some? ==> plan.guards.maxFrozen.value >= 0.0
    requires beats[|beats| - 1].now >= WorldBefore(plan, L, w, s, beats).nextRuns[0]
    ensures |beats[|beats| - 1].shows| == |Ages(L)|
    ensures var g, b := plan.guards, beats[|beats| - 1];
            var s' := BusBefore(plan, L, w, s, beats);
            WorldAfter(plan, w, TraceOf(plan, L, w, s, beats)).lock.tripped <==>
            || Lt(Fin(g.maxAge), AgeSeen(L, s', b, 0))
            || (exists i :: 0 <= i < |L.aged| && OverOwnLimit(L, s', b, g.ageLimits, i))
            || (g.maxWriteAge.Some? && Lt(Fin(g.maxWriteAge.value), AgeSeen(L, s', b, 1)))
            || Frozen(g, LooksOf(plan, L, w, s, beats))
  {
    hide Run, Equipped, DistinctChannels, Stepped, Tied, Interlocked, SafetyLands, Plays, CycleOf, After, BeatEvents, Ages;
    hide Judged, AgeSeen, OverOwnLimit, Lt, Faulty, Inspected, Frozen, LookIn, LimitsOwned, Readable, AllSee;
    hide MemoryOf, InTime, AllIn;
    LandsDistinct(plan, w.tags);
    var init, b := beats[..|beats| - 1], beats[|beats| - 1];
    var before := TraceOf(plan, L, w, s, init);
    var w', s' := WorldAfter(plan, w, before), BusAfter(L, s, before);
    AssembledHolds(plan, L, w, s, init);
    OneMoreBeat(plan, L, w, s, beats);
    PlaysShows(plan, L, w', s', b);
    BeatLock(plan, L, w', s', b);
    RemembersLooks(plan, L, w, s, init);
    DueLooks(plan, L, w', s', b);
    LooksInTime(plan, L, w, s, beats, b.now);
    FrozenTold(plan.guards, LooksOf(plan, L, w, s, init), Look(b.now, Judged(L, w', s', b)));
    FaultyByAges(plan, L, w', s', b, Inspected(plan.guards, w'.lock.memory, Judged(L, w', s', b), b.now).frozen);
  }

  /** Over every run of the assembled system from its start, whatever the worker and the other
      controllers do: a cycle in which the interlock runs ends tripped if and only if some device's
      last fully good poll is missing or more than the limit ago, or a device with a limit of its own
      has exceeded that one, or the last delivered write is missing or too long ago, or a watched tag
      has held one value since an execution more than the limit ago. */
  lemma TripsIff(plan: Plan, L: Layout, w: World, s: Sys, beats: seq<Beat>)
    requires Started(plan, w) && SafetyLands(plan, w.tags) && Tied(plan, L, w, s) && Initial(L, s)
    requires AllPlay(plan, L, w, s, beats) && beats != [] && InOrder(beats) && Timed(TraceOf(plan, L, w, s, beats).events)
    requires GuardFirst(plan) && LimitsOwned(L, plan.guards.ageLimits)
    requires plan.guards.maxFrozen.Some? ==> plan.guards.maxFrozen.value >= 0.0
    requires beats[|beats| - 1].now >= WorldBefore(plan, L, w, s, beats).nextRuns[0]
    ensures |beats[|beats| - 1].shows| == |Ages(L)|
    ensures WorldAfter(plan, w, TraceOf(plan, L, w, s, beats)).lock.tripped <==>
            || ReadingsOverdue(L, s, Sight(plan, L, w, s, beats, 0), plan.guards.maxAge, beats[|beats| - 1].shows[0].at)
            || (exists i :: 0 <= i < |L.aged| && DeviceLost(plan, L, w, s, beats, i))
            || WritesLost(plan, L, w, s, beats)
            || Frozen(plan.guards, LooksOf(plan, L, w, s, beats))
  {
    hide Run, Equipped, DistinctChannels, Tied, Interlocked, SafetyLands, AllPlay, After, AgeSeen, Lt, ReadingsOverdue;
    hide DeviceLost, WritesLost, Frozen, LooksOf, Sight, OverOwnLimit, TraceOf, GuardFirst, LimitsOwned, InOrder, Timed, Ages;
    LandsDistinct(plan, w.tags);
    StartsInterlocked(plan, w);
    TiedDates(plan, L, w, s);
    hide Started, Dates;
    LastVerdict(plan, L, w, s, beats);
    AgesTold(plan, L, w, s, beats);
  }

  lemma TiedDates(plan: Plan, L: Layout, w: World, s: Sys)
    requires Tied(plan, L, w, s)
    ensures Dates(L)
  {}
}
