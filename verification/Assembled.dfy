/** The scan cycle and the bus worker assembled (src/pyems/ems.py, src/pyems/scheduler.py,
    src/pyems/drivers/cached.py): every cycle runs on the live store of the bus, with any steps of
    the worker between any two of its own. */
module Assembled {
  import opened Num
  import Board
  import opened Channels
  import opened CachedDriver
  import opened Interleaving
  import opened Publication
  import opened Weaving
  import opened Arbitration
  import opened Allocator
  import opened Safety
  import opened Scan

  // --- the tags a cycle's tasks set -----------------------------------------------------------------

  function PlayedSets(tags: Tags, claims: map<string, Board.Claims>, script: seq<Effect>, now: real): seq<Event> {
    if script == [] then []
    else
      var o := Acted(tags, claims, script[0], now);
      (if script[0].SetTag? then [LiveSet(script[0].name, script[0].value)] else [])
      + if o.ok then PlayedSets(o.tags, o.claims, script[1..], now) else []
  }

  function RanSets(plan: Plan, w: World, r: Runner, c: Turn): seq<Event>
    requires Equipped(plan, w)
  {
    match r
    case Guardian => [LiveSet(SAFE_MODE, ModeWord(Ran(plan, w, r, c).lock.tripped))]
    case Normal(id) => PlayedSets(w.tags, w.claims, ScriptOf(c, id), c.now)
  }

  function FirstSets(plan: Plan, w: World, controllers: seq<Runner>, c: Turn, n: nat): seq<Event>
    requires Equipped(plan, w) && n <= |controllers|
  {
    if n == 0 then []
    else
      FirstSets(plan, w, controllers, c, n - 1)
      + RanSets(plan, RanFirst(plan, w, controllers, c, n - 1), controllers[n - 1], c)
  }

  function TaskSets(plan: Plan, w: World, i: nat, c: Turn): seq<Event>
    requires Equipped(plan, w) && i < |plan.tasks|
  {
    if c.now >= w.nextRuns[i] then FirstSets(plan, w, plan.tasks[i].controllers, c, |plan.tasks[i].controllers|) else []
  }

  function TasksSets(plan: Plan, w: World, c: Turn, n: nat): seq<Event>
    requires Equipped(plan, w) && n <= |plan.tasks|
  {
    if n == 0 then [] else TasksSets(plan, w, c, n - 1) + TaskSets(plan, TasksRan(plan, w, c, n - 1), n - 1, c)
  }

  /** The acts account for the tags off the device channels. */
  ghost predicate Accounts(device: set<string>, tags: Tags, acts: seq<Event>, after: Tags) {
    AllActs(acts) && NonePublish(acts) && SameOff(device, Done(tags, acts), after)
  }

  lemma AccountsAgain(device: set<string>, tags: Tags, a: seq<Event>, mid: Tags, b: seq<Event>, after: Tags)
    requires Accounts(device, tags, a, mid) && Accounts(device, mid, b, after)
    ensures Accounts(device, tags, a + b, after)
  {
    DoneTogether(tags, a, b);
    DoneOff(device, Done(tags, a), mid, b);
    SameOffAgain(device, Done(Done(tags, a), b), Done(mid, b), after);
    hide SameOff, Done;
  }

  lemma NothingDone(device: set<string>, tags: Tags)
    ensures Accounts(device, tags, [], tags)
  {}

  lemma {:induction false} PlayedAccounts(
    device: set<string>, tags: Tags, claims: map<string, Board.Claims>, script: seq<Effect>, now: real)
    ensures Accounts(device, tags, PlayedSets(tags, claims, script, now), Played(tags, claims, script, now).tags)
  {
    hide Accounts;
    NothingDone(device, tags);
    if script != [] {
      var o := Acted(tags, claims, script[0], now);
      var first := if script[0].SetTag? then [LiveSet(script[0].name, script[0].value)] else [];
      ActedAccounts(device, tags, claims, script[0], now);
      if o.ok {
        PlayedAccounts(device, o.tags, o.claims, script[1..], now);
        AccountsAgain(device, tags, first, o.tags, PlayedSets(o.tags, o.claims, script[1..], now),
                      Played(o.tags, o.claims, script[1..], now).tags);
      } else {
        assert first + [] == first;
      }
    }
  }

  lemma ActedAccounts(device: set<string>, tags: Tags, claims: map<string, Board.Claims>, e: Effect, now: real)
    ensures Accounts(device, tags, if e.SetTag? then [LiveSet(e.name, e.value)] else [], Acted(tags, claims, e, now).tags)
  {
    if e.SetTag? {
      var acts := [LiveSet(e.name, e.value)];
      assert acts[..|acts| - 1] == [];
      assert Done(tags, acts) == Commanded(tags, e.name, e.value);
    }
  }

  lemma RanAccounts(device: set<string>, plan: Plan, w: World, r: Runner, c: Turn)
    requires Equipped(plan, w) && c.seen.Keys <= device
    ensures Accounts(device, w.tags, RanSets(plan, w, r, c), Ran(plan, w, r, c).tags)
  {
    match r
    case Guardian =>
      var word := ModeWord(Ran(plan, w, r, c).lock.tripped);
      GuardAccounts(device, w.tags, c.seen, word);
      hide SafetyVerdict, SafetyClaims;
    case Normal(id) =>
      PlayedAccounts(device, w.tags, w.claims, ScriptOf(c, id), c.now);
  }

  lemma GuardAccounts(device: set<string>, tags: Tags, seen: map<string, Ext>, word: Ext)
    requires seen.Keys <= device
    ensures Accounts(device, tags, [LiveSet(SAFE_MODE, word)], Commanded(ObservedAll(tags, seen), SAFE_MODE, word))
  {
    var acts := [LiveSet(SAFE_MODE, word)];
    assert acts[..|acts| - 1] == [];
    assert Done(tags, acts) == Commanded(tags, SAFE_MODE, word);
  }

  lemma {:induction false} FirstAccounts(device: set<string>, plan: Plan, w: World, controllers: seq<Runner>, c: Turn, n: nat)
    requires Equipped(plan, w) && n <= |controllers| && c.seen.Keys <= device
    ensures Accounts(device, w.tags, FirstSets(plan, w, controllers, c, n), RanFirst(plan, w, controllers, c, n).tags)
  {
    hide Accounts, Ran, RanSets, Equipped, SameShape;
    if n > 0 {
      var before := RanFirst(plan, w, controllers, c, n - 1);
      FirstAccounts(device, plan, w, controllers, c, n - 1);
      RanAccounts(device, plan, before, controllers[n - 1], c);
      AccountsAgain(device, w.tags, FirstSets(plan, w, controllers, c, n - 1), before.tags,
                    RanSets(plan, before, controllers[n - 1], c), Ran(plan, before, controllers[n - 1], c).tags);
    } else {
      NothingDone(device, w.tags);
    }
  }

  lemma TaskAccounts(device: set<string>, plan: Plan, w: World, i: nat, c: Turn)
    requires Equipped(plan, w) && i < |plan.tasks| && c.seen.Keys <= device
    ensures Accounts(device, w.tags, TaskSets(plan, w, i, c), TaskRan(plan, w, i, c).tags)
  {
    FirstAccounts(device, plan, w, plan.tasks[i].controllers, c, |plan.tasks[i].controllers|);
    NothingDone(device, w.tags);
    hide Accounts, RanFirst, FirstSets;
  }

  lemma {:induction false} TasksAccount(device: set<string>, plan: Plan, w: World, c: Turn, n: nat)
    requires Equipped(plan, w) && n <= |plan.tasks| && c.seen.Keys <= device
    ensures Accounts(device, w.tags, TasksSets(plan, w, c, n), TasksRan(plan, w, c, n).tags)
  {
    hide Accounts, TaskRan, TaskSets, Equipped, SameShape;
    if n > 0 {
      var before := TasksRan(plan, w, c, n - 1);
      TasksAccount(device, plan, w, c, n - 1);
      TaskAccounts(device, plan, before, n - 1, c);
      AccountsAgain(device, w.tags, TasksSets(plan, w, c, n - 1), before.tags,
                    TaskSets(plan, before, n - 1, c), TaskRan(plan, before, n - 1, c).tags);
    } else {
      NothingDone(device, w.tags);
    }
  }

  // --- the acts that close a cycle ------------------------------------------------------------------

  function CommandActs(cfgs: seq<Config>, values: seq<real>): seq<Event>
    requires |values| == |cfgs|
  {
    seq(|cfgs|, i requires 0 <= i < |cfgs| => LiveSet(cfgs[i].channel, Fin(values[i])))
  }

  function GatherActs(names: seq<string>): seq<Event> {
    seq(|names|, i requires 0 <= i < |names| => Gather(names[i]))
  }

  /** Arbitration commands each channel, then each setpoint is read, then all are published. */
  function ClosingActs(cfgs: seq<Config>, values: seq<real>, names: seq<string>): (acts: seq<Event>)
    requires |values| == |cfgs|
    ensures |acts| == |cfgs| + |names| + 1
  {
    CommandActs(cfgs, values) + GatherActs(names) + [Publish]
  }

  lemma {:induction false} CommandsDone(tags: Tags, cfgs: seq<Config>, values: seq<real>, n: nat)
    requires |values| == |cfgs| && n <= |cfgs|
    ensures Done(tags, CommandActs(cfgs, values)[..n]) == CommandedFirst(tags, cfgs, values, n)
  {
    if n > 0 {
      CommandsDone(tags, cfgs, values, n - 1);
      assert CommandActs(cfgs, values)[..n][..n - 1] == CommandActs(cfgs, values)[..n - 1];
    }
  }

  lemma {:induction false} GathersDone(tags: Tags, acts: seq<Event>)
    requires forall i :: 0 <= i < |acts| ==> !acts[i].LiveSet?
    ensures Done(tags, acts) == tags
  {
    if acts != [] { GathersDone(tags, acts[..|acts| - 1]); }
  }

  lemma ClosingDone(tags: Tags, cfgs: seq<Config>, values: seq<real>, names: seq<string>)
    requires |values| == |cfgs|
    ensures Done(tags, ClosingActs(cfgs, values, names)) == CommandedFirst(tags, cfgs, values, |cfgs|)
    ensures AllActs(ClosingActs(cfgs, values, names)) && NonePublish(ClosingActs(cfgs, values, names)[..|cfgs| + |names|])
  {
    var commands, rest := CommandActs(cfgs, values), GatherActs(names) + [Publish];
    assert ClosingActs(cfgs, values, names) == commands + rest && commands[..|cfgs|] == commands;
    DoneTogether(tags, commands, rest);
    CommandsDone(tags, cfgs, values, |cfgs|);
    GathersDone(Done(tags, commands), rest);
  }

  /** Each setpoint once. */
  ghost predicate Enumerates(names: seq<string>, all: set<string>) {
    && (forall i, j :: 0 <= i < j < |names| ==> names[i] != names[j])
    && (forall n :: n in all <==> n in names)
  }

  lemma ClosingApart(cfgs: seq<Config>, values: seq<real>, names: seq<string>, i: nat, j: nat)
    requires |values| == |cfgs| && DistinctChannels(cfgs) && i < |cfgs| && j < |names| && cfgs[i].channel == names[j]
    requires forall k, l :: 0 <= k < l < |names| ==> names[k] != names[l]
    ensures var acts, k := ClosingActs(cfgs, values, names), |cfgs| + j;
            && acts[i] == LiveSet(names[j], Fin(values[i])) && acts[k] == Gather(names[j])
            && NoneSets(acts[i + 1..k], names[j]) && NoneReads(acts[k + 1..|cfgs| + |names|], names[j])
  {
    var acts, k := ClosingActs(cfgs, values, names), |cfgs| + j;
    forall m | i + 1 <= m < k ensures !Sets(acts[m], names[j]) {
      if m < |cfgs| {
        assert acts[m] == LiveSet(cfgs[m].channel, Fin(values[m]));
      } else {
        assert acts[m] == Gather(names[m - |cfgs|]);
      }
    }
    GatherApart(cfgs, values, names, j);
  }

  lemma GatherApart(cfgs: seq<Config>, values: seq<real>, names: seq<string>, j: nat)
    requires |values| == |cfgs| && j < |names| && forall k, l :: 0 <= k < l < |names| ==> names[k] != names[l]
    ensures var acts, k := ClosingActs(cfgs, values, names), |cfgs| + j;
            acts[k] == Gather(names[j]) && NoneReads(acts[k + 1..|cfgs| + |names|], names[j])
  {
    var acts, k := ClosingActs(cfgs, values, names), |cfgs| + j;
    forall m | k + 1 <= m < |cfgs| + |names| ensures !Reads(acts[m], names[j]) {
      assert acts[m] == Gather(names[m - |cfgs|]);
    }
  }

  ghost predicate Closes(L: Layout, cfgs: seq<Config>, values: seq<real>, names: seq<string>, gaps: seq<seq<Event>>) {
    |values| == |cfgs| && |gaps| == |cfgs| + |names| + 1 && GapsAside(gaps) && Enumerates(names, L.writable)
  }

  lemma NameRead(L: Layout, s: Sys, cfgs: seq<Config>, values: seq<real>, names: seq<string>, gaps: seq<seq<Event>>, j: nat)
    requires Shaped(L, s) && Closes(L, cfgs, values, names, gaps) && j < |names|
    ensures names[j] in Run(L, s, Between(ClosingActs(cfgs, values, names), gaps, 0, |cfgs| + |names|)).gathered
  {
    hide Run, Shaped, GapsAside, AllActs, Between, Done, CommandedFirst, ClosingActs, NonePublish, NoneReads;
    ClosingDone(s.live, cfgs, values, names);
    GatherApart(cfgs, values, names, j);
    ReadStays(L, s, ClosingActs(cfgs, values, names), gaps, |cfgs| + j, |cfgs| + |names|, names[j]);
  }

  lemma NamesRead(L: Layout, s: Sys, cfgs: seq<Config>, values: seq<real>, names: seq<string>, gaps: seq<seq<Event>>)
    requires Shaped(L, s) && Closes(L, cfgs, values, names, gaps)
    ensures L.writable <= Run(L, s, Between(ClosingActs(cfgs, values, names), gaps, 0, |cfgs| + |names|)).gathered.Keys
  {
    hide Run, Shaped, GapsAside, Between, ClosingActs;
    forall n | n in L.writable
      ensures n in Run(L, s, Between(ClosingActs(cfgs, values, names), gaps, 0, |cfgs| + |names|)).gathered
    {
      var j :| 0 <= j < |names| && names[j] == n;
      NameRead(L, s, cfgs, values, names, gaps, j);
    }
  }

  lemma ClosingReads(L: Layout, s: Sys, cfgs: seq<Config>, values: seq<real>, names: seq<string>, gaps: seq<seq<Event>>)
    requires Shaped(L, s) && Closes(L, cfgs, values, names, gaps)
    ensures var g := Run(L, s, Between(ClosingActs(cfgs, values, names), gaps, 0, |cfgs| + |names|));
            Shaped(L, g) && SameChannels(s.io, g.io) && g.gathered.Keys == L.writable
  {
    hide Run, Shaped, GapsAside, AllActs, Between, SameOff, SameChannels, Done, CommandedFirst, ClosingActs, NonePublish;
    hide Enumerates;
    var acts, last := ClosingActs(cfgs, values, names), |cfgs| + |names|;
    NamesRead(L, s, cfgs, values, names, gaps);
    ClosingDone(s.live, cfgs, values, names);
    BetweenOff(L, s, acts, gaps, last);
    ShapedGathers(L, Run(L, s, Between(acts, gaps, 0, last)));
  }

  lemma ShapedGathers(L: Layout, s: Sys)
    requires Shaped(L, s)
    ensures s.gathered.Keys <= L.writable && L.writable <= s.io.Keys
  {
    forall n | n in L.writable ensures n in s.io { ShapedHas(L, s, n); }
  }

  lemma ClosingRuns(
    L: Layout, s: Sys, tags: Tags, cfgs: seq<Config>, values: seq<real>, names: seq<string>, gaps: seq<seq<Event>>)
    requires Shaped(L, s) && Closes(L, cfgs, values, names, gaps) && SameOff(s.io.Keys, tags, s.live)
    ensures var acts := ClosingActs(cfgs, values, names);
            var g, t := Run(L, s, Between(acts, gaps, 0, |cfgs| + |names|)), Run(L, s, Woven(acts, gaps));
            && Shaped(L, t) && SameChannels(s.io, t.io) && t.mirror.cache == s.mirror.cache + g.gathered
            && SameOff(s.io.Keys, CommandedFirst(tags, cfgs, values, |cfgs|), t.live)
  {
    hide Run, Apply, Shaped, GapsAside, AllActs, Between, Woven, SameOff, SameChannels, Done, CommandedFirst, NonePublish;
    hide Enumerates;
    var acts := ClosingActs(cfgs, values, names);
    assert acts[|acts| - 1] == Publish;
    hide ClosingActs;
    ClosingDone(tags, cfgs, values, names);
    WovenOff(L, s, tags, acts, gaps);
    WovenPublishes(L, s, acts, gaps);
  }

  lemma NamePinned(
    L: Layout, s: Sys, cfgs: seq<Config>, values: seq<real>, names: seq<string>, gaps: seq<seq<Event>>, i: nat, j: nat)
    requires Shaped(L, s) && Closes(L, cfgs, values, names, gaps) && DistinctChannels(cfgs)
    requires i < |cfgs| && j < |names| && cfgs[i].channel == names[j] && Commandable(s.live, names[j])
    ensures var acts, n := ClosingActs(cfgs, values, names), names[j];
            var g := Run(L, s, Between(acts, gaps, 0, |cfgs| + |names|));
            && n in g.gathered
            && g.gathered[n] == Over(Lands(L, s, acts, gaps, i, |cfgs| + j, n), Clamped(s.live, n, Fin(values[i])))
  {
    hide Run, Shaped, GapsAside, AllActs, Between, Done, CommandedFirst, ClosingActs, NonePublish, NoneReads, NoneSets;
    hide Lands, Clamped;
    ClosingDone(s.live, cfgs, values, names);
    ClosingApart(cfgs, values, names, i, j);
    CommandGathered(L, s, ClosingActs(cfgs, values, names), gaps, i, |cfgs| + j, |cfgs| + |names|, names[j], Fin(values[i]));
  }

  // --- one cycle on the bus -------------------------------------------------------------------------

  /** Whose age a cycle reads: of all devices' readings, of the writes, of one device's readings. */
  datatype Age = Everyone | Writes | One(device: string)

  function AgeTagOf(a: Age): string {
    match a
    case Everyone => COMMS_AGE
    case Writes => WRITE_AGE
    case One(d) => AgeTag(d)
  }

  ghost function AgeNow(s: Sys, a: Age, at: real): Ext {
    match a
    case Everyone => GlobalAge(s.lastOk, at)
    case Writes => AgeOf(s.lastWriteOk, at)
    case One(d) => if d in s.lastOk then AgeOf(s.lastOk[d], at) else PosInf
  }

  /** The ages in the order they are read in. */
  function Ages(L: Layout): (ages: seq<Age>)
    ensures |ages| == |L.aged| + 2 && ages[0] == Everyone && ages[1] == Writes
    ensures forall i :: 0 <= i < |L.aged| ==> ages[i + 2] == One(L.aged[i])
  {
    [Everyone, Writes] + seq(|L.aged|, i requires 0 <= i < |L.aged| => One(L.aged[i]))
  }

  /** The tags that only the reading of the ages and the interlock write. */
  predicate Reserved(L: Layout, n: string) {
    n == SAFE_MODE || exists i :: 0 <= i < |Ages(L)| && n == AgeTagOf(Ages(L)[i])
  }

  /** Each device has one age tag, and no two ages share one. */
  lemma AgesApart(L: Layout, i: nat, j: nat)
    requires Dates(L) && i < j < |Ages(L)|
    ensures AgeTagOf(Ages(L)[i]) != AgeTagOf(Ages(L)[j]) && SAFE_MODE != AgeTagOf(Ages(L)[i])
    ensures SAFE_MODE != AgeTagOf(Ages(L)[j])
  {
    var a, b := Ages(L)[i], Ages(L)[j];
    assert COMMS_AGE[5] != WRITE_AGE[5];
    if a.One? && b.One? { AgeTagInjective(a.device, b.device); }
  }

  ghost predicate Dates(L: Layout) {
    && (forall i, j :: 0 <= i < j < |L.aged| ==> L.aged[i] != L.aged[j])
    && forall i :: 0 <= i < |L.aged| ==> L.aged[i] in L.channels
  }

  /** What a cycle does as it reads its inputs, the ages apart: measurements are copied in one by
      one, the operator's words are observed, and the worker goes on. */
  predicate ReadsIn(L: Layout, e: Event) {
    Aside(e) || e.Fetch? || ((e.CopyIn? || e.Observe?) && !Reserved(L, e.name))
  }

  ghost predicate AllReadIn(L: Layout, es: seq<Event>) {
    forall i :: 0 <= i < |es| ==> ReadsIn(L, es[i])
  }

  /** The reading of one age: what comes before it, and the time it is taken at. */
  datatype Show = Show(gap: seq<Event>, at: real)

  /** A cycle and where the worker's steps fall: around the reading of each age, before each
      tag that a task sets, before each command of arbitration, each reading of a setpoint for
      publication and the publication. names is the order the setpoints are read in. What the
      interlock sees on the device channels when it runs may be anything. */
  datatype Beat = Beat(
    now: real,
    scripts: map<nat, seq<Effect>>,
    seen: map<string, Ext>,
    early: seq<Event>,
    shows: seq<Show>,
    late: seq<Event>,
    running: seq<seq<Event>>,
    names: seq<string>,
    closing: seq<seq<Event>>)

  function Read(plan: Plan, w: World, c: Turn): (after: World)
    requires Equipped(plan, w)
    ensures Equipped(plan, after) && after.tags == ObservedAll(w.tags, c.inputs)
  {
    w.(tags := ObservedAll(w.tags, c.inputs))
  }

  function Tasked(plan: Plan, w: World, c: Turn): (after: World)
    requires Equipped(plan, w)
    ensures Equipped(plan, after)
  {
    TasksRan(plan, Read(plan, w, c), c, |plan.tasks|)
  }

  /** What arbitration resolves. */
  ghost function Resolutions(plan: Plan, w: World, c: Turn): (values: seq<real>)
    requires Equipped(plan, w)
    ensures |values| == |plan.cfgs|
  {
    NextAll(plan.cfgs, plan.cycle, Tasked(plan, w, c).claims, c.now, Tasked(plan, w, c).lasts)
  }

  function Setting(plan: Plan, w: World, c: Turn): seq<Event>
    requires Equipped(plan, w)
  {
    TasksSets(plan, Read(plan, w, c), c, |plan.tasks|)
  }

  ghost function Closing(plan: Plan, w: World, c: Turn, names: seq<string>): (acts: seq<Event>)
    requires Equipped(plan, w)
    ensures |acts| == |plan.cfgs| + |names| + 1
  {
    ClosingActs(plan.cfgs, Resolutions(plan, w, c), names)
  }

  ghost predicate ReadsAges(L: Layout, b: Beat) {
    && |b.shows| == |Ages(L)| && AllReadIn(L, b.early) && AllReadIn(L, b.late)
    && forall k :: 0 <= k < |b.shows| ==> AllReadIn(L, b.shows[k].gap)
  }

  /** All up to the reading of the k-th age. */
  ghost function UpTo(L: Layout, s: Sys, b: Beat, k: nat): seq<Event>
    requires |b.shows| == |Ages(L)| && k < |Ages(L)|
    decreases k, 0
  {
    (if k == 0 then b.early else UpTo(L, s, b, k - 1) + [Showing(L, s, b, k - 1)]) + b.shows[k].gap
  }

  /** The k-th age, as the cycle reads it. */
  ghost function AgeSeen(L: Layout, s: Sys, b: Beat, k: nat): Ext
    requires |b.shows| == |Ages(L)| && k < |Ages(L)|
    decreases k, 1
  {
    AgeNow(Run(L, s, UpTo(L, s, b, k)), Ages(L)[k], b.shows[k].at)
  }

  ghost function Showing(L: Layout, s: Sys, b: Beat, k: nat): Event
    requires |b.shows| == |Ages(L)| && k < |Ages(L)|
    decreases k, 2
  {
    Observe(AgeTagOf(Ages(L)[k]), AgeSeen(L, s, b, k))
  }

  ghost function ReadingEvents(L: Layout, s: Sys, b: Beat): seq<Event>
    requires |b.shows| == |Ages(L)|
  {
    UpTo(L, s, b, |Ages(L)| - 1) + [Showing(L, s, b, |Ages(L)| - 1)] + b.late
  }

  ghost function AfterReading(L: Layout, s: Sys, b: Beat): Sys
    requires |b.shows| == |Ages(L)|
  {
    Run(L, s, ReadingEvents(L, s, b))
  }

  /** The cycle reads the live tags, all but its own status word. */
  ghost function TurnOf(L: Layout, s: Sys, b: Beat): Turn
    requires |b.shows| == |Ages(L)|
  {
    var live := AfterReading(L, s, b).live;
    Turn(b.now, Readout(live, live.Keys - {SAFE_MODE}), b.scripts, b.seen)
  }

  /** The worker's steps fall between the cycle's, whatever these are, and the other controllers
      leave the interlock's own name, priority and word alone. */
  ghost predicate Plays(plan: Plan, L: Layout, w: World, s: Sys, b: Beat)
    requires Equipped(plan, w)
  {
    && |b.shows| == |Ages(L)| && ReadsAges(L, b)
    && |b.running| == |Setting(plan, w, TurnOf(L, s, b))| && GapsAside(b.running)
    && |b.closing| == |plan.cfgs| + |b.names| + 1 && GapsAside(b.closing)
    && Enumerates(b.names, plan.writable)
    && HarmlessAll(b.scripts) && b.seen.Keys <= s.io.Keys
  }

  ghost function AfterRunning(plan: Plan, L: Layout, w: World, s: Sys, b: Beat): Sys
    requires Equipped(plan, w) && Plays(plan, L, w, s, b)
  {
    Run(L, AfterReading(L, s, b), Woven(Setting(plan, w, TurnOf(L, s, b)), b.running))
  }

  /** All is read that will be published. */
  ghost function BeforePublish(plan: Plan, L: Layout, w: World, s: Sys, b: Beat): Sys
    requires Equipped(plan, w) && Plays(plan, L, w, s, b)
  {
    Run(L, AfterRunning(plan, L, w, s, b),
        Between(Closing(plan, w, TurnOf(L, s, b), b.names), b.closing, 0, |plan.cfgs| + |b.names|))
  }

  /** The cycle finds on each setpoint what was read there for publication. */
  ghost function CycleOf(plan: Plan, L: Layout, w: World, s: Sys, b: Beat): Cycle
    requires Equipped(plan, w) && Plays(plan, L, w, s, b)
  {
    Cycle(TurnOf(L, s, b), BeforePublish(plan, L, w, s, b).gathered)
  }

  ghost function BeatEvents(plan: Plan, L: Layout, w: World, s: Sys, b: Beat): seq<Event>
    requires Equipped(plan, w) && Plays(plan, L, w, s, b)
  {
    ReadingEvents(L, s, b) + Woven(Setting(plan, w, TurnOf(L, s, b)), b.running)
    + Woven(Closing(plan, w, TurnOf(L, s, b), b.names), b.closing)
  }

  /** The cycle's tags are the live store, and what it published is what the driver has cached. */
  ghost predicate Tied(plan: Plan, L: Layout, w: World, s: Sys) {
    && Shaped(L, s) && SameOff(s.io.Keys, w.tags, s.live) && w.published == s.mirror.cache
    && plan.writable == L.writable && SAFE_MODE !in s.io && SAFE_MODE in w.tags && AgesFit(L, w.tags, s.io)
  }

  /** The ages have tags of their own, off the devices. */
  ghost predicate AgesFit(L: Layout, tags: Tags, io: Tags) {
    Dates(L) && forall i :: 0 <= i < |Ages(L)| ==> AgeTagOf(Ages(L)[i]) in tags && AgeTagOf(Ages(L)[i]) !in io
  }

  // reading

  /** One step of the reading: the status word and the ages are left alone. */
  ghost predicate Onlooker(L: Layout, s: Sys, t: Sys) {
    && SameChannels(s.live, t.live) && SameChannels(s.io, t.io) && t.mirror.cache == s.mirror.cache
    && forall n :: n in s.live && n !in s.io && Reserved(L, n) ==> t.live[n] == s.live[n]
  }

  lemma OnlookerAgain(L: Layout, s: Sys, t: Sys, u: Sys)
    requires Onlooker(L, s, t) && Onlooker(L, t, u)
    ensures Onlooker(L, s, u)
  {
    hide Reserved;
  }

  lemma ReadsInStep(L: Layout, s: Sys, e: Event)
    requires Shaped(L, s) && ReadsIn(L, e)
    ensures Shaped(L, Apply(L, s, e)) && Onlooker(L, s, Apply(L, s, e))
  {
    hide Apply, Shaped, Agree, Reserved;
    ShapedStep(L, s, e);
    IoKeys(L, s, e);
    CacheKept(L, s, e);
    ShapedAgrees(L, s);
    if Aside(e) {
      AsideOff(L, s, e);
    } else {
      match e
      case CopyIn(n) => CopyStep(L, s, n);
      case Observe(n, v) => ObserveStep(L, s, n, v);
      case _ => StoresKept(L, s, e);
    }
  }

  lemma {:induction false} ReadsInRun(L: Layout, s: Sys, es: seq<Event>)
    requires Shaped(L, s) && AllReadIn(L, es)
    ensures Shaped(L, Run(L, s, es)) && Onlooker(L, s, Run(L, s, es))
  {
    if es != [] {
      var init, last := es[..|es| - 1], es[|es| - 1];
      assert AllReadIn(L, init) && ReadsIn(L, last);
      hide Apply, Shaped, Onlooker, AllReadIn, ReadsIn;
      ReadsInRun(L, s, init);
      ReadsInStep(L, Run(L, s, init), last);
      OnlookerAgain(L, s, Run(L, s, init), Apply(L, Run(L, s, init), last));
    }
  }

  /** The reading so far: the status word is left alone, and the first k ages show. */
  ghost predicate Watched(L: Layout, s: Sys, b: Beat, t: Sys, k: nat)
    requires |b.shows| == |Ages(L)| && k <= |Ages(L)|
  {
    && Shaped(L, t) && SameChannels(s.live, t.live) && SameChannels(s.io, t.io) && t.mirror.cache == s.mirror.cache
    && (SAFE_MODE in s.live && SAFE_MODE !in s.io ==> t.live[SAFE_MODE] == s.live[SAFE_MODE])
    && forall i :: 0 <= i < k ==> Shows(t, AgeTagOf(Ages(L)[i]), AgeSeen(L, s, b, i))
  }

  ghost predicate Shows(t: Sys, tag: string, age: Ext) {
    tag in t.live && tag !in t.io && t.live[tag].value == age
  }

  lemma WatchedOn(L: Layout, s: Sys, b: Beat, t: Sys, k: nat, es: seq<Event>)
    requires |b.shows| == |Ages(L)| && k <= |Ages(L)| && Watched(L, s, b, t, k) && AllReadIn(L, es)
    ensures Watched(L, s, b, Run(L, t, es), k)
  {
    hide Run, Shaped, AllReadIn, AgeSeen;
    ReadsInRun(L, t, es);
    SameTwice(s.live, t.live, Run(L, t, es).live);
    SameTwice(s.io, t.io, Run(L, t, es).io);
    forall i | 0 <= i < k ensures Shows(Run(L, t, es), AgeTagOf(Ages(L)[i]), AgeSeen(L, s, b, i)) {
      assert Shows(t, AgeTagOf(Ages(L)[i]), AgeSeen(L, s, b, i)) && Reserved(L, AgeTagOf(Ages(L)[i]));
    }
  }

  lemma AgeStep(L: Layout, s: Sys, tag: string, age: Ext)
    requires Shaped(L, s) && tag in s.live && tag !in s.io
    ensures var t := Apply(L, s, Observe(tag, age));
            && Shaped(L, t) && t.live == Observed(s.live, tag, age) && t.io == s.io && t.mirror.cache == s.mirror.cache
  {
    hide Apply, Shaped, Agree;
    ShapedStep(L, s, Observe(tag, age));
    ShapedAgrees(L, s);
    ObserveStep(L, s, tag, age);
    CacheKept(L, s, Observe(tag, age));
  }

  lemma WatchedOne(L: Layout, s: Sys, b: Beat, t: Sys, k: nat)
    requires |b.shows| == |Ages(L)| && k < |Ages(L)| && Watched(L, s, b, t, k) && AgesFit(L, s.live, s.io)
    ensures Watched(L, s, b, Apply(L, t, Showing(L, s, b, k)), k + 1)
  {
    hide Run, Apply, Shaped, AgeSeen, AgeTagOf, Dates;
    var tag, age := AgeTagOf(Ages(L)[k]), AgeSeen(L, s, b, k);
    AgeStep(L, t, tag, age);
    if k > 0 { AgesApart(L, k - 1, k); } else { AgesApart(L, 0, 1); }
    SameTwice(s.live, t.live, Apply(L, t, Showing(L, s, b, k)).live);
    forall i | 0 <= i < k ensures Shows(Apply(L, t, Showing(L, s, b, k)), AgeTagOf(Ages(L)[i]), AgeSeen(L, s, b, i)) {
      assert Shows(t, AgeTagOf(Ages(L)[i]), AgeSeen(L, s, b, i));
      AgesApart(L, i, k);
    }
  }

  lemma {:induction false} UpToWatched(L: Layout, s: Sys, b: Beat, k: nat)
    requires Shaped(L, s) && ReadsAges(L, b) && AgesFit(L, s.live, s.io) && k < |Ages(L)|
    ensures Watched(L, s, b, Run(L, s, UpTo(L, s, b, k)), k)
  {
    hide Run, Apply, Shaped, AllReadIn, AgesFit, Watched, AgeSeen;
    if k == 0 {
      WatchedFirst(L, s, b);
      WatchedOn(L, s, b, s, 0, b.early);
      RunAppend(L, s, b.early, b.shows[0].gap);
      WatchedOn(L, s, b, Run(L, s, b.early), 0, b.shows[0].gap);
    } else {
      var before := UpTo(L, s, b, k - 1);
      UpToWatched(L, s, b, k - 1);
      WatchedOne(L, s, b, Run(L, s, before), k - 1);
      RunStep(L, s, before, Showing(L, s, b, k - 1));
      RunAppend(L, s, before + [Showing(L, s, b, k - 1)], b.shows[k].gap);
      WatchedOn(L, s, b, Run(L, s, before + [Showing(L, s, b, k - 1)]), k, b.shows[k].gap);
    }
  }

  lemma WatchedFirst(L: Layout, s: Sys, b: Beat)
    requires Shaped(L, s) && |b.shows| == |Ages(L)|
    ensures Watched(L, s, b, s, 0)
  {
    SameAsItself(s.io, s.live);
  }

  lemma ReadingRun(L: Layout, s: Sys, b: Beat)
    requires Shaped(L, s) && ReadsAges(L, b) && AgesFit(L, s.live, s.io)
    ensures Watched(L, s, b, AfterReading(L, s, b), |Ages(L)|)
  {
    hide Run, Apply, Shaped, AllReadIn, AgesFit, Watched, AgeSeen;
    var last := |Ages(L)| - 1;
    var before := UpTo(L, s, b, last);
    hide UpTo;
    UpToWatched(L, s, b, last);
    WatchedOne(L, s, b, Run(L, s, before), last);
    RunStep(L, s, before, Showing(L, s, b, last));
    RunAppend(L, s, before + [Showing(L, s, b, last)], b.late);
    WatchedOn(L, s, b, Run(L, s, before + [Showing(L, s, b, last)]), |Ages(L)|, b.late);
  }

  lemma ReadsLive(tags: Tags, live: Tags)
    requires SameChannels(tags, live) && (SAFE_MODE in tags ==> tags[SAFE_MODE] == live[SAFE_MODE])
    ensures ObservedAll(tags, Readout(live, live.Keys - {SAFE_MODE})) == live
  {}

  lemma TiedAges(plan: Plan, L: Layout, w: World, s: Sys)
    requires Tied(plan, L, w, s)
    ensures Shaped(L, s) && AgesFit(L, s.live, s.io) && SameChannels(w.tags, s.live)
    ensures SAFE_MODE in w.tags && SAFE_MODE in s.live && SAFE_MODE !in s.io && w.tags[SAFE_MODE] == s.live[SAFE_MODE]
  {
    hide Shaped, Dates;
  }

  /** After the reading the tags are the live store, and show the ages. */
  lemma ReadingTies(plan: Plan, L: Layout, w: World, s: Sys, b: Beat)
    requires Equipped(plan, w) && Tied(plan, L, w, s) && ReadsAges(L, b)
    ensures var t := AfterReading(L, s, b);
            && Shaped(L, t) && SameChannels(s.io, t.io) && t.mirror.cache == s.mirror.cache
            && Read(plan, w, TurnOf(L, s, b)).tags == t.live
  {
    hide Shaped, AllReadIn, Equipped, Run, ObservedAll, ReadingEvents, Tied, AgesFit, AgeSeen;
    TiedAges(plan, L, w, s);
    ReadingRun(L, s, b);
    SameTwice(w.tags, s.live, AfterReading(L, s, b).live);
    ReadsLive(w.tags, AfterReading(L, s, b).live);
  }

  /** The cycle's inputs hold each age as it was when it was read. */
  lemma AgesRead(plan: Plan, L: Layout, w: World, s: Sys, b: Beat, k: nat)
    requires Tied(plan, L, w, s) && ReadsAges(L, b) && k < |Ages(L)|
    ensures var inputs, tag := TurnOf(L, s, b).inputs, AgeTagOf(Ages(L)[k]);
            tag in inputs && inputs[tag] == AgeSeen(L, s, b, k)
  {
    hide Shaped, AllReadIn, Run, ReadingEvents, Tied, AgesFit, AgeSeen, AgeTagOf, Dates;
    TiedAges(plan, L, w, s);
    ReadingRun(L, s, b);
    assert Dates(L) by { FitDates(L, s); }
    if k > 0 { AgesApart(L, 0, k); } else { AgesApart(L, 0, 1); }
    assert Shows(AfterReading(L, s, b), AgeTagOf(Ages(L)[k]), AgeSeen(L, s, b, k));
  }

  lemma FitDates(L: Layout, s: Sys)
    requires AgesFit(L, s.live, s.io)
    ensures Dates(L)
  {}

  // running and closing

  lemma RunningTies(plan: Plan, L: Layout, w: World, s: Sys, b: Beat)
    requires Equipped(plan, w) && Tied(plan, L, w, s) && Plays(plan, L, w, s, b)
    ensures var t := AfterRunning(plan, L, w, s, b);
            && Shaped(L, t) && SameChannels(s.io, t.io) && t.mirror.cache == s.mirror.cache
            && SameOff(s.io.Keys, Tasked(plan, w, TurnOf(L, s, b)).tags, t.live)
  {
    var r, acts := AfterReading(L, s, b), Setting(plan, w, TurnOf(L, s, b));
    hide Run, Shaped, ReadsAges, GapsAside, TasksSets, TasksRan, AllActs, Woven, Enumerates, SameOff, Done, Equipped;
    hide BeforePublish, HarmlessAll, Readout, ReadingEvents, Closing, ObservedAll, SameChannels;
    ReadingTies(plan, L, w, s, b);
    SameKeysOf(s.io, r.io);
    TasksAccount(s.io.Keys, plan, Read(plan, w, TurnOf(L, s, b)), TurnOf(L, s, b), |plan.tasks|);
    WeaveAccounted(L, r, acts, b.running, Tasked(plan, w, TurnOf(L, s, b)).tags);
    SameTwice(s.io, r.io, AfterRunning(plan, L, w, s, b).io);
  }

  lemma WeaveAccounted(L: Layout, s: Sys, acts: seq<Event>, gaps: seq<seq<Event>>, after: Tags)
    requires Shaped(L, s) && |gaps| == |acts| && GapsAside(gaps) && Accounts(s.io.Keys, s.live, acts, after)
    ensures var t := Run(L, s, Woven(acts, gaps));
            Shaped(L, t) && SameChannels(s.io, t.io) && t.mirror.cache == s.mirror.cache && SameOff(s.io.Keys, after, t.live)
  {
    hide Run, Shaped, GapsAside, AllActs, Woven, SameOff, Done, NonePublish;
    SameAsItself(s.io, s.live);
    WovenOff(L, s, s.live, acts, gaps);
    WovenNever(acts, gaps, "");
    CacheLasts(L, s, Woven(acts, gaps));
    SameOffTurned(s.io.Keys, Done(s.live, acts), after, Run(L, s, Woven(acts, gaps)).live);
  }

  lemma SameOffTurned(device: set<string>, a: Tags, b: Tags, c: Tags)
    requires SameOff(device, a, b) && SameOff(device, a, c)
    ensures SameOff(device, b, c)
  {}

  lemma AllGathered(plan: Plan, L: Layout, w: World, s: Sys, b: Beat)
    requires Equipped(plan, w) && Tied(plan, L, w, s) && Plays(plan, L, w, s, b)
    ensures var g := BeforePublish(plan, L, w, s, b);
            Shaped(L, g) && SameChannels(s.io, g.io) && g.gathered.Keys == L.writable
  {
    hide Run, Shaped, GapsAside, Between, SameOff, SameChannels, Equipped, ReadsAges, Enumerates, Setting, AfterRunning;
    hide ClosingActs, Resolutions, Tasked;
    RunningTies(plan, L, w, s, b);
    ClosingReads(L, AfterRunning(plan, L, w, s, b), plan.cfgs, Resolutions(plan, w, TurnOf(L, s, b)), b.names, b.closing);
    SameTwice(s.io, AfterRunning(plan, L, w, s, b).io, BeforePublish(plan, L, w, s, b).io);
  }

  lemma PlaysShows(plan: Plan, L: Layout, w: World, s: Sys, b: Beat)
    requires Equipped(plan, w) && Plays(plan, L, w, s, b)
    ensures |b.shows| == |Ages(L)|
  {}

  lemma {:induction false} ReadingStarts(L: Layout, s: Sys, b: Beat, k: nat) returns (rest: seq<Event>)
    requires |b.shows| == |Ages(L)| && k < |Ages(L)|
    ensures ReadingEvents(L, s, b) == UpTo(L, s, b, k) + rest
    decreases |Ages(L)| - k
  {
    hide Run;
    if k == |Ages(L)| - 1 {
      rest := [Showing(L, s, b, k)] + b.late;
      assert UpTo(L, s, b, k) + [Showing(L, s, b, k)] + b.late == UpTo(L, s, b, k) + rest;
    } else {
      var more := ReadingStarts(L, s, b, k + 1);
      rest := [Showing(L, s, b, k)] + b.shows[k + 1].gap + more;
      hide Showing, ReadingEvents, Ages;
      assert UpTo(L, s, b, k + 1) == UpTo(L, s, b, k) + [Showing(L, s, b, k)] + b.shows[k + 1].gap;
    }
  }

  lemma BeatStarts(plan: Plan, L: Layout, w: World, s: Sys, b: Beat, k: nat) returns (rest: seq<Event>)
    requires Equipped(plan, w) && Plays(plan, L, w, s, b) && k < |Ages(L)|
    ensures BeatEvents(plan, L, w, s, b) == UpTo(L, s, b, k) + rest
  {
    hide Run, Equipped, Setting, Closing, Woven, GapsAside, Enumerates, ReadsAges, HarmlessAll, UpTo, ReadingEvents;
    var more := ReadingStarts(L, s, b, k);
    var running := Woven(Setting(plan, w, TurnOf(L, s, b)), b.running);
    var closing := Woven(Closing(plan, w, TurnOf(L, s, b), b.names), b.closing);
    rest := more + running + closing;
    assert UpTo(L, s, b, k) + more + running + closing == UpTo(L, s, b, k) + (more + running + closing);
  }

  /** The state a beat leaves. */
  ghost function AfterBeat(plan: Plan, L: Layout, w: World, s: Sys, b: Beat): Sys
    requires Equipped(plan, w) && Plays(plan, L, w, s, b)
  {
    Run(L, s, BeatEvents(plan, L, w, s, b))
  }

  lemma BeatInParts(plan: Plan, L: Layout, w: World, s: Sys, b: Beat)
    requires Equipped(plan, w) && Plays(plan, L, w, s, b)
    ensures AfterBeat(plan, L, w, s, b) ==
            Run(L, AfterRunning(plan, L, w, s, b), Woven(Closing(plan, w, TurnOf(L, s, b), b.names), b.closing))
  {
    hide Run, Equipped, ReadingEvents, Woven, Setting, Closing, GapsAside, Enumerates, ReadsAges;
    RunAppend(L, s, ReadingEvents(L, s, b), Woven(Setting(plan, w, TurnOf(L, s, b)), b.running));
    RunAppend(L, s, ReadingEvents(L, s, b) + Woven(Setting(plan, w, TurnOf(L, s, b)), b.running),
              Woven(Closing(plan, w, TurnOf(L, s, b), b.names), b.closing));
  }

  lemma ClosingGoes(plan: Plan, L: Layout, w: World, s: Sys, b: Beat)
    requires Equipped(plan, w) && Plays(plan, L, w, s, b) && plan.writable == L.writable
    requires var u := AfterRunning(plan, L, w, s, b);
             Shaped(L, u) && SameOff(u.io.Keys, Tasked(plan, w, TurnOf(L, s, b)).tags, u.live)
    ensures var g, t, u := BeforePublish(plan, L, w, s, b), AfterBeat(plan, L, w, s, b), AfterRunning(plan, L, w, s, b);
            var tags, values := Tasked(plan, w, TurnOf(L, s, b)).tags, Resolutions(plan, w, TurnOf(L, s, b));
            && Shaped(L, t) && SameChannels(u.io, t.io) && t.mirror.cache == u.mirror.cache + g.gathered
            && SameOff(u.io.Keys, CommandedFirst(tags, plan.cfgs, values, |plan.cfgs|), t.live)
  {
    hide Run, Shaped, SameOff, SameChannels, Equipped, ReadsAges, Enumerates, GapsAside, AfterBeat;
    hide Setting, Resolutions, AfterRunning, Tasked, BeatEvents, CommandedFirst, ClosingActs, Between, Woven;
    BeatInParts(plan, L, w, s, b);
    ClosingRuns(L, AfterRunning(plan, L, w, s, b), Tasked(plan, w, TurnOf(L, s, b)).tags, plan.cfgs,
                Resolutions(plan, w, TurnOf(L, s, b)), b.names, b.closing);
  }

  lemma ClosingTies(plan: Plan, L: Layout, w: World, s: Sys, b: Beat)
    requires Equipped(plan, w) && Tied(plan, L, w, s) && Plays(plan, L, w, s, b)
    ensures var g, t := BeforePublish(plan, L, w, s, b), AfterBeat(plan, L, w, s, b);
            var tags, values := Tasked(plan, w, TurnOf(L, s, b)).tags, Resolutions(plan, w, TurnOf(L, s, b));
            && Shaped(L, t) && SameChannels(s.io, t.io) && t.mirror.cache == s.mirror.cache + g.gathered
            && SameOff(s.io.Keys, CommandedFirst(tags, plan.cfgs, values, |plan.cfgs|), t.live)
  {
    hide Run, Shaped, SameOff, SameChannels, Equipped, AfterReading, HarmlessAll, Readout;
    hide Resolutions, AfterRunning, Tasked, CommandedFirst, BeforePublish, AfterBeat;
    RunningTies(plan, L, w, s, b);
    SameKeysOf(s.io, AfterRunning(plan, L, w, s, b).io);
    ClosingGoes(plan, L, w, s, b);
    SameTwice(s.io, AfterRunning(plan, L, w, s, b).io, AfterBeat(plan, L, w, s, b).io);
  }

  lemma DecidedTags(plan: Plan, w: World, c: Turn)
    requires Equipped(plan, w) && DistinctChannels(plan.cfgs)
    ensures Decided(plan, w, c).tags == CommandedFirst(Tasked(plan, w, c).tags, plan.cfgs, Resolutions(plan, w, c), |plan.cfgs|)
  {
    hide TasksRan, CommandedFirst, Equipped;
  }

  lemma LandedOff(device: set<string>, tags: Tags, live: Tags, landed: map<string, Ext>)
    requires SameOff(device, tags, live) && landed.Keys <= device
    ensures SameOff(device, ObservedAll(tags, landed), live)
  {}

  lemma OutputReads(plan: Plan, w: World, landed: map<string, Ext>)
    requires Equipped(plan, w) && landed.Keys == plan.writable
    ensures Output(plan, w, landed).published == w.published + landed
  {
    assert Readout(ObservedAll(w.tags, landed), plan.writable) == landed;
  }

  /** The tie is kept by every beat. */
  lemma BeatTied(plan: Plan, L: Layout, w: World, s: Sys, b: Beat)
    requires Equipped(plan, w) && DistinctChannels(plan.cfgs) && Tied(plan, L, w, s) && Plays(plan, L, w, s, b)
    ensures Tied(plan, L, Stepped(plan, w, CycleOf(plan, L, w, s, b)), AfterBeat(plan, L, w, s, b))
  {
    hide Run, Shaped, SameOff, Equipped, ReadsAges, HarmlessAll, Resolutions, Tasked, AfterBeat, BeforePublish;
    hide CommandedFirst, ObservedAll, Readout, AgesFit, Ages, Decided;
    var d, t := Decided(plan, w, TurnOf(L, s, b)), AfterBeat(plan, L, w, s, b);
    hide DistinctChannels, AfterReading, TurnOf, Enumerates, GapsAside, Setting;
    AllGathered(plan, L, w, s, b);
    ClosingTies(plan, L, w, s, b);
    DecidedTags(plan, w, TurnOf(L, s, b));
    SameKeysOf(s.io, t.io);
    ShapedGathers(L, t);
    LandedOff(s.io.Keys, d.tags, t.live, BeforePublish(plan, L, w, s, b).gathered);
    OutputReads(plan, d, BeforePublish(plan, L, w, s, b).gathered);
    DecidedPublishes(plan, w, TurnOf(L, s, b));
    SameKeysOf(w.tags, Stepped(plan, w, CycleOf(plan, L, w, s, b)).tags);
    AgesStay(L, w.tags, s.io, Stepped(plan, w, CycleOf(plan, L, w, s, b)).tags, t.io);
  }

  lemma AgesStay(L: Layout, tags: Tags, io: Tags, tags': Tags, io': Tags)
    requires AgesFit(L, tags, io) && tags.Keys == tags'.Keys && io.Keys == io'.Keys
    ensures AgesFit(L, tags', io')
  {}

  lemma DecidedPublishes(plan: Plan, w: World, c: Turn)
    requires Equipped(plan, w) && DistinctChannels(plan.cfgs)
    ensures Decided(plan, w, c).published == w.published
  {
    TasksPublish(plan, w.(tags := ObservedAll(w.tags, c.inputs)), c, |plan.tasks|);
    hide TasksRan, NextAll, CommandedFirst;
  }

  lemma RanPublishes(plan: Plan, w: World, r: Runner, c: Turn)
    requires Equipped(plan, w)
    ensures Ran(plan, w, r, c).published == w.published
  {
    hide Equipped, SafetyVerdict, SafetyClaims, Commanded, Played;
  }

  lemma {:induction false} FirstPublish(plan: Plan, w: World, controllers: seq<Runner>, c: Turn, n: nat)
    requires Equipped(plan, w) && n <= |controllers|
    ensures RanFirst(plan, w, controllers, c, n).published == w.published
  {
    hide Equipped, Ran, SameShape;
    if n > 0 {
      FirstPublish(plan, w, controllers, c, n - 1);
      RanPublishes(plan, RanFirst(plan, w, controllers, c, n - 1), controllers[n - 1], c);
    }
  }

  lemma {:induction false} TasksPublish(plan: Plan, w: World, c: Turn, n: nat)
    requires Equipped(plan, w) && n <= |plan.tasks|
    ensures TasksRan(plan, w, c, n).published == w.published
  {
    hide Equipped, RanFirst, SameShape;
    if n > 0 {
      TasksPublish(plan, w, c, n - 1);
      var before, controllers := TasksRan(plan, w, c, n - 1), plan.tasks[n - 1].controllers;
      FirstPublish(plan, before, controllers, c, |controllers|);
    }
  }

  // --- what a cycle publishes -------------------------------------------------------------------------

  /** The last value the worker puts on the i-th configured channel, the j-th setpoint read, between
      its command and its reading for publication. */
  ghost function Displaced(plan: Plan, L: Layout, w: World, s: Sys, b: Beat, i: nat, j: nat): Option<Ext>
    requires Equipped(plan, w) && Plays(plan, L, w, s, b) && i < |plan.cfgs| && j < |b.names|
  {
    Lands(L, AfterRunning(plan, L, w, s, b), Closing(plan, w, TurnOf(L, s, b), b.names), b.closing, i, |plan.cfgs| + j, b.names[j])
  }

  lemma BeatGathers(plan: Plan, L: Layout, w: World, s: Sys, b: Beat, i: nat, j: nat)
    requires Equipped(plan, w) && DistinctChannels(plan.cfgs) && Plays(plan, L, w, s, b) && plan.writable == L.writable
    requires i < |plan.cfgs| && j < |b.names| && plan.cfgs[i].channel == b.names[j]
    requires var u := AfterRunning(plan, L, w, s, b); Shaped(L, u) && Commandable(u.live, b.names[j])
    ensures var n, g := b.names[j], BeforePublish(plan, L, w, s, b);
            && n in g.gathered
            && g.gathered[n] == Over(Displaced(plan, L, w, s, b, i, j),
                                     Clamped(AfterRunning(plan, L, w, s, b).live, n, Fin(Resolutions(plan, w, TurnOf(L, s, b))[i])))
  {
    hide Run, Shaped, GapsAside, Between, Equipped, ReadsAges, Enumerates, Setting, Resolutions, AfterRunning, ClosingActs;
    hide Lands, DistinctChannels, Clamped, Commandable, Over;
    NamePinned(L, AfterRunning(plan, L, w, s, b), plan.cfgs, Resolutions(plan, w, TurnOf(L, s, b)), b.names, b.closing, i, j);
  }

  /** A cycle publishes what arbitration commanded, unless the worker put another value on the
      setpoint since. */
  lemma BeatPublishes(plan: Plan, L: Layout, w: World, s: Sys, b: Beat, i: nat, j: nat)
    requires Equipped(plan, w) && DistinctChannels(plan.cfgs) && Tied(plan, L, w, s) && Plays(plan, L, w, s, b)
    requires i < |plan.cfgs| && j < |b.names| && plan.cfgs[i].channel == b.names[j] && Commandable(w.tags, b.names[j])
    ensures var n, cache := b.names[j], AfterBeat(plan, L, w, s, b).mirror.cache;
            && n in cache
            && cache[n] == Over(Displaced(plan, L, w, s, b, i, j),
                                Clamped(w.tags, n, Fin(Resolutions(plan, w, TurnOf(L, s, b))[i])))
  {
    var u, n, values := AfterRunning(plan, L, w, s, b), b.names[j], Resolutions(plan, w, TurnOf(L, s, b));
    hide Run, Shaped, SameOff, SameChannels, Equipped, HarmlessAll, Resolutions, AfterRunning, BeforePublish;
    hide AfterReading, Readout;
    hide AfterBeat, Tasked, Displaced, DistinctChannels, CommandedFirst, Clamped, Commandable, Over;
    RunningTies(plan, L, w, s, b);
    TaskedChannels(plan, w, TurnOf(L, s, b), n, Fin(values[i]));
    SameOffSame(s.io.Keys, Tasked(plan, w, TurnOf(L, s, b)).tags, u.live);
    SameCommand(Tasked(plan, w, TurnOf(L, s, b)).tags, u.live, n, Fin(values[i]));
    BeatGathers(plan, L, w, s, b, i, j);
    ClosingTies(plan, L, w, s, b);
  }

  lemma SameOffSame(device: set<string>, tags: Tags, live: Tags)
    requires SameOff(device, tags, live)
    ensures SameChannels(tags, live)
  {}

  lemma SameCommand(tags: Tags, live: Tags, n: string, v: Ext)
    requires SameChannels(tags, live) && Commandable(tags, n)
    ensures Commandable(live, n) && Clamped(live, n, v) == Clamped(tags, n, v)
  {}

  lemma TaskedChannels(plan: Plan, w: World, c: Turn, n: string, v: Ext)
    requires Equipped(plan, w) && Commandable(w.tags, n)
    ensures var tags := Tasked(plan, w, c).tags;
            SameChannels(w.tags, tags) && Commandable(tags, n) && Clamped(tags, n, v) == Clamped(w.tags, n, v)
  {
    var read := Read(plan, w, c);
    hide TasksRan;
    assert SameShape(read, TasksRan(plan, read, c, |plan.tasks|));
    SameTwice(w.tags, read.tags, Tasked(plan, w, c).tags);
    SameClamp(w.tags, Tasked(plan, w, c).tags, n, v);
  }

  predicate IsOther(put: Option<Ext>, v: Ext) {
    put.Some? && put.value != v
  }

  /** A tripped cycle publishes the safe value on every guarded setpoint, unless the worker put
      another value on it between its command and its reading; and exactly then another. */
  lemma TrippedPublishes(plan: Plan, L: Layout, w: World, s: Sys, b: Beat, i: nat, j: nat)
    requires Equipped(plan, w) && SafetyLands(plan, w.tags) && Interlocked(plan, w) && Tied(plan, L, w, s)
    requires Plays(plan, L, w, s, b) && Stepped(plan, w, CycleOf(plan, L, w, s, b)).lock.tripped
    requires i < |plan.cfgs| && j < |b.names| && plan.cfgs[i].channel == b.names[j] && b.names[j] in plan.guards.guarded
    ensures var n, cache, safe := b.names[j], AfterBeat(plan, L, w, s, b).mirror.cache, Fin(plan.guards.safeW);
            && n in cache && cache[n] == Over(Displaced(plan, L, w, s, b, i, j), safe)
            && (cache[n] == safe <==> !IsOther(Displaced(plan, L, w, s, b, i, j), safe))
  {
    hide Run, Shaped, SameOff, Equipped, HarmlessAll, Resolutions, AfterReading, BeforePublish, AfterBeat, Displaced;
    hide SafetyLands, Interlocked;
    hide Reaches, Readout, Stepped, Clamped, Plays, Tied, Commandable, Unprivileged, Foreign, Decided, TurnOf, CycleOf;
    hide DistinctChannels;
    GuardedReached(plan, w.tags, b.names[j]);
    LandsDistinct(plan, w.tags);
    PlaysUnprivileged(plan, L, w, s, b);
    OutputDecides(plan, w, CycleOf(plan, L, w, s, b));
    SafeCommanded(plan, w, CycleOf(plan, L, w, s, b).turn, i);
    BeatPublishes(plan, L, w, s, b, i, j);
  }

  lemma GuardedReached(plan: Plan, tags: Tags, n: string)
    requires SafetyLands(plan, tags) && n in plan.guards.guarded
    ensures Commandable(tags, n)
  {
    assert Reaches(plan, tags, n);
  }

  lemma PlaysUnprivileged(plan: Plan, L: Layout, w: World, s: Sys, b: Beat)
    requires Equipped(plan, w) && Tied(plan, L, w, s) && Plays(plan, L, w, s, b)
    ensures var c := CycleOf(plan, L, w, s, b);
            c.turn == TurnOf(L, s, b) && Unprivileged(c.turn) && Foreign(c.landed)
  {
    hide Run, Shaped, SameOff, Equipped, HarmlessAll, AfterReading, BeforePublish;
    AllGathered(plan, L, w, s, b);
    ShapedGathers(L, BeforePublish(plan, L, w, s, b));
    SameKeysOf(s.io, BeforePublish(plan, L, w, s, b).io);
  }

  /** Tripped, what arbitration resolves for a guarded channel is the safe value. */
  lemma SafeCommanded(plan: Plan, w: World, c: Turn, i: nat)
    requires Equipped(plan, w) && SafetyLands(plan, w.tags) && Interlocked(plan, w) && Unprivileged(c)
    requires Decided(plan, w, c).lock.tripped && i < |plan.cfgs| && plan.cfgs[i].channel in plan.guards.guarded
    ensures var n := plan.cfgs[i].channel;
            n in w.tags && Clamped(w.tags, n, Fin(Resolutions(plan, w, c)[i])) == Fin(plan.guards.safeW)
  {
    var n := plan.cfgs[i].channel;
    assert Reaches(plan, w.tags, n);
    hide Interlocked, SafetyLands, Equipped, Resolutions, Decided, Tasked, Unprivileged, CommandedFirst;
    DecidedLands(plan, w, c);
    DecidedTags(plan, w, c);
    TaskedChannels(plan, w, c, n, Fin(Resolutions(plan, w, c)[i]));
    CommandedAt(Tasked(plan, w, c).tags, plan.cfgs, Resolutions(plan, w, c), |plan.cfgs|, i);
  }

  // --- runs -------------------------------------------------------------------------------------------

  /** The cycles of a run, and all that happened on the bus. */
  datatype Trace = Trace(cycles: seq<Cycle>, events: seq<Event>)

  ghost function WorldAfter(plan: Plan, w: World, trace: Trace): (after: World)
    requires Equipped(plan, w) && DistinctChannels(plan.cfgs)
    ensures Equipped(plan, after)
  {
    After(plan, w, trace.cycles)
  }

  function BusAfter(L: Layout, s: Sys, trace: Trace): Sys {
    Run(L, s, trace.events)
  }

  /** Every beat plays on the state the ones before it left. */
  ghost predicate AllPlay(plan: Plan, L: Layout, w: World, s: Sys, beats: seq<Beat>)
    requires Equipped(plan, w) && DistinctChannels(plan.cfgs)
    decreases |beats|, 0
  {
    beats != [] ==>
      var init := beats[..|beats| - 1];
      && AllPlay(plan, L, w, s, init)
      && var before := TraceOf(plan, L, w, s, init);
         Plays(plan, L, WorldAfter(plan, w, before), BusAfter(L, s, before), beats[|beats| - 1])
  }

  ghost function TraceOf(plan: Plan, L: Layout, w: World, s: Sys, beats: seq<Beat>): Trace
    requires Equipped(plan, w) && DistinctChannels(plan.cfgs) && AllPlay(plan, L, w, s, beats)
    decreases |beats|, 1
  {
    if beats == [] then Trace([], [])
    else
      var before, last := TraceOf(plan, L, w, s, beats[..|beats| - 1]), beats[|beats| - 1];
      var w', s' := WorldAfter(plan, w, before), BusAfter(L, s, before);
      Trace(before.cycles + [CycleOf(plan, L, w', s', last)], before.events + BeatEvents(plan, L, w', s', last))
  }

  lemma OneMoreCycle(plan: Plan, w: World, cycles: seq<Cycle>, c: Cycle)
    requires Equipped(plan, w) && DistinctChannels(plan.cfgs)
    ensures After(plan, w, cycles + [c]) == Stepped(plan, After(plan, w, cycles), c)
  {
    hide Equipped, DistinctChannels, Stepped;
    assert (cycles + [c])[..|cycles|] == cycles;
  }

  lemma OneMoreBeat(plan: Plan, L: Layout, w: World, s: Sys, beats: seq<Beat>)
    requires Equipped(plan, w) && DistinctChannels(plan.cfgs) && AllPlay(plan, L, w, s, beats) && beats != []
    ensures var before, after := TraceOf(plan, L, w, s, beats[..|beats| - 1]), TraceOf(plan, L, w, s, beats);
            var w', s', b := WorldAfter(plan, w, before), BusAfter(L, s, before), beats[|beats| - 1];
            && WorldAfter(plan, w, after) == Stepped(plan, w', CycleOf(plan, L, w', s', b))
            && BusAfter(L, s, after) == AfterBeat(plan, L, w', s', b)
  {
    hide Run, Equipped, DistinctChannels, Stepped, After, BeatEvents, CycleOf, Plays;
    var before, b := TraceOf(plan, L, w, s, beats[..|beats| - 1]), beats[|beats| - 1];
    var w', s' := WorldAfter(plan, w, before), BusAfter(L, s, before);
    OneMoreCycle(plan, w, before.cycles, CycleOf(plan, L, w', s', b));
    RunAppend(L, s, before.events, BeatEvents(plan, L, w', s', b));
  }

  /** Over every run of the assembled system the cycle's tags are the live store, the published
      setpoints are the driver's, and status word, trip and claims agree. */
  lemma {:induction false} AssembledHolds(plan: Plan, L: Layout, w: World, s: Sys, beats: seq<Beat>)
    requires Equipped(plan, w) && SafetyLands(plan, w.tags) && Interlocked(plan, w) && Tied(plan, L, w, s)
    requires AllPlay(plan, L, w, s, beats)
    ensures var trace := TraceOf(plan, L, w, s, beats);
            var after := WorldAfter(plan, w, trace);
            && Tied(plan, L, after, BusAfter(L, s, trace)) && Interlocked(plan, after) && SafetyLands(plan, after.tags)
  {
    hide Run, Equipped, DistinctChannels, Stepped, AfterBeat, Tied, Interlocked, SafetyLands, Plays, CycleOf, After;
    hide BeatEvents;
    LandsDistinct(plan, w.tags);
    if beats != [] {
      AssembledHolds(plan, L, w, s, beats[..|beats| - 1]);
      OneMoreBeat(plan, L, w, s, beats);
      var before := TraceOf(plan, L, w, s, beats[..|beats| - 1]);
      BeatHolds(plan, L, WorldAfter(plan, w, before), BusAfter(L, s, before), beats[|beats| - 1]);
    } else {
      NoBeats(plan, L, w, s);
    }
  }

  lemma BeatHolds(plan: Plan, L: Layout, w: World, s: Sys, b: Beat)
    requires Equipped(plan, w) && SafetyLands(plan, w.tags) && Interlocked(plan, w) && Tied(plan, L, w, s)
    requires Plays(plan, L, w, s, b)
    ensures var after := Stepped(plan, w, CycleOf(plan, L, w, s, b));
            && Tied(plan, L, after, AfterBeat(plan, L, w, s, b)) && Interlocked(plan, after) && SafetyLands(plan, after.tags)
  {
    hide Run, Equipped, DistinctChannels, Stepped, AfterBeat, Tied, Interlocked, SafetyLands, Plays, TurnOf, CycleOf;
    hide Unprivileged, Foreign, Pinned;
    LandsDistinct(plan, w.tags);
    PlaysUnprivileged(plan, L, w, s, b);
    InterlockStep(plan, w, CycleOf(plan, L, w, s, b));
    BeatTied(plan, L, w, s, b);
  }

  lemma NoBeats(plan: Plan, L: Layout, w: World, s: Sys)
    requires Equipped(plan, w) && DistinctChannels(plan.cfgs)
    ensures AllPlay(plan, L, w, s, [])
    ensures WorldAfter(plan, w, TraceOf(plan, L, w, s, [])) == w && BusAfter(L, s, TraceOf(plan, L, w, s, [])) == s
  {
    hide Equipped, DistinctChannels;
  }

  /** What the worker put last on a guarded setpoint in the last cycle, between its command and its
      reading for publication. */
  ghost function LastDisplaced(plan: Plan, L: Layout, w: World, s: Sys, beats: seq<Beat>, i: nat, j: nat): Option<Ext>
    requires Equipped(plan, w) && DistinctChannels(plan.cfgs) && AllPlay(plan, L, w, s, beats) && beats != []
    requires i < |plan.cfgs| && j < |beats[|beats| - 1].names|
  {
    var before := TraceOf(plan, L, w, s, beats[..|beats| - 1]);
    Displaced(plan, L, WorldAfter(plan, w, before), BusAfter(L, s, before), beats[|beats| - 1], i, j)
  }

  /** A guarded setpoint, the i-th configured channel and the j-th setpoint the last cycle reads. */
  ghost predicate IsGuarded(plan: Plan, beats: seq<Beat>, i: nat, j: nat) {
    && beats != [] && i < |plan.cfgs| && j < |beats[|beats| - 1].names|
    && plan.cfgs[i].channel == beats[|beats| - 1].names[j] && plan.cfgs[i].channel in plan.guards.guarded
  }

  /** Over every run of the assembled system, whatever the worker and the other controllers do: a
      cycle that ends tripped has published the safe value on a guarded setpoint, unless the worker
      put another value on it between its command and its reading; and exactly then another. */
  lemma TrippedRunPublishes(plan: Plan, L: Layout, w: World, s: Sys, beats: seq<Beat>, i: nat, j: nat)
    requires Equipped(plan, w) && SafetyLands(plan, w.tags) && Interlocked(plan, w) && Tied(plan, L, w, s)
    requires AllPlay(plan, L, w, s, beats) && IsGuarded(plan, beats, i, j)
    requires WorldAfter(plan, w, TraceOf(plan, L, w, s, beats)).lock.tripped
    ensures var n, safe := plan.cfgs[i].channel, Fin(plan.guards.safeW);
            var cache := BusAfter(L, s, TraceOf(plan, L, w, s, beats)).mirror.cache;
            && n in cache && cache[n] == Over(LastDisplaced(plan, L, w, s, beats, i, j), safe)
            && (cache[n] == safe <==> !IsOther(LastDisplaced(plan, L, w, s, beats, i, j), safe))
  {
    hide Run, Equipped, DistinctChannels, Stepped, AfterBeat, Tied, Interlocked, SafetyLands, Displaced, Plays, CycleOf;
    hide After, BeatEvents;
    LandsDistinct(plan, w.tags);
    AssembledHolds(plan, L, w, s, beats[..|beats| - 1]);
    OneMoreBeat(plan, L, w, s, beats);
    var before := TraceOf(plan, L, w, s, beats[..|beats| - 1]);
    TrippedPublishes(plan, L, WorldAfter(plan, w, before), BusAfter(L, s, before), beats[|beats| - 1], i, j);
  }

  /** With a private store the worker puts nothing on a live setpoint. */
  lemma PrivateDisplacesNone(plan: Plan, L: Layout, w: World, s: Sys, b: Beat, i: nat, j: nat)
    requires Equipped(plan, w) && Plays(plan, L, w, s, b) && i < |plan.cfgs| && j < |b.names| && !L.shared
    ensures Displaced(plan, L, w, s, b, i, j) == None
  {
    hide Equipped, AfterRunning, Closing, Lands, GapsAside, ReadsAges, Enumerates, Setting;
    PrivateLandsNone(L, AfterRunning(plan, L, w, s, b), Closing(plan, w, TurnOf(L, s, b), b.names), b.closing,
                     i, |plan.cfgs| + j, b.names[j]);
  }
}
