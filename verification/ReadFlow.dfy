/** Measurements, on every interleaving in which the foreground's copy of the cache overwrites no
    reading still to be committed (in a private store it cannot), and their ages, on every one. */
module ReadFlow {
  import opened Num
  import opened Channels
  import opened CachedDriver
  import opened Interleaving
  import opened SetpointFlow

  /** The cached measurements are each device's values in good, or still the initial zero. */
  ghost predicate MeasuredFrom(L: Layout, meas: Values, good: map<string, Values>) {
    forall d, n :: d in L.channels && n in L.Measured()[d] ==>
      n in meas && if d in good then n in good[d] && meas[n] == good[d][n] else meas[n] == Fin(0.0)
  }

  /** No cached value is older than the stamp of its device says. */
  ghost predicate Consistent(L: Layout, s: Sys) {
    MeasuredFrom(L, s.meas, s.past.good)
  }

  ghost predicate StampedFrom(L: Layout, lastOk: map<string, real>, stamps: map<string, real>) {
    && lastOk.Keys == L.channels.Keys && stamps.Keys <= L.channels.Keys
    && forall d :: d in lastOk ==> lastOk[d] == if d in stamps then stamps[d] else 0.0
  }

  ghost predicate Holds(io: Tags, names: set<string>, values: Values) {
    forall n :: n in names ==> n in values && n in io && io[n].value == values[n]
  }

  predicate InPoll(L: Layout, p: Phase, d: string) {
    p.Reading? && d in L.channels && d in p.polled && d !in p.failed
  }

  /** The worker's store still holds what each good device of the poll under way returned. */
  ghost predicate StillInStore(L: Layout, p: Phase, io: Tags) {
    forall d :: InPoll(L, p, d) ==> Holds(io, L.Measured()[d], p.polled[d])
  }

  /** A reading still to be committed differs from the value the foreground copies over it. */
  predicate Overwrites(L: Layout, s: Sys, e: Event) {
    && L.shared && e.CopyIn? && e.name in s.fetched && ReadAnew(L, s.phase, e.name, s.fetched[e.name])
  }

  predicate ReadAnew(L: Layout, p: Phase, n: string, was: Ext) {
    p.Reading? && exists d :: d in p.polled && InPoll(L, p, d) && n in L.Measured()[d] && n in p.polled[d] && p.polled[d][n] != was
  }

  ghost predicate Unspoilt(L: Layout, s: Sys, es: seq<Event>) {
    forall i :: 0 <= i < |es| ==> !Overwrites(L, Run(L, s, es[..i]), es[i])
  }

  lemma UnspoiltInit(L: Layout, s: Sys, es: seq<Event>)
    requires es != [] && Unspoilt(L, s, es)
    ensures var init := es[..|es| - 1];
            Unspoilt(L, s, init) && !Overwrites(L, Run(L, s, init), es[|es| - 1])
  {
    var init := es[..|es| - 1];
    forall i | 0 <= i < |init| ensures !Overwrites(L, Run(L, s, init[..i]), init[i]) {
      assert init[..i] == es[..i] && init[i] == es[i];
    }
  }

  /** The cache holds, for each device, its last fully good poll, stamped with its time. */
  ghost predicate ReadsHold(L: Layout, s: Sys) {
    && MeasuredFrom(L, s.meas, s.past.good) && StampedFrom(L, s.lastOk, s.past.stamps)
    && s.past.good.Keys == s.past.stamps.Keys && StillInStore(L, s.phase, s.io)
  }

  lemma PolledStays(L: Layout, p: Phase, live: Tags, io: Tags, d: string, values: map<string, Option<Ext>>)
    requires StoresFit(L, live, io) && Pollable(L, p, d, values) && StillInStore(L, p, io)
    ensures StillInStore(L, AfterPoll(p, d, values), PolledIn(io, values))
  {
    var q, after := AfterPoll(p, d, values), PolledIn(io, values);
    forall e | InPoll(L, q, e) ensures Holds(after, L.Measured()[e], q.polled[e]) {
      if e == d {
        assert AllGood(values) && q.polled[d] == Goods(values);
      } else {
        assert InPoll(L, p, e) && Holds(io, L.Measured()[e], p.polled[e]);
        assert forall n :: n in L.channels[e] ==> n !in L.channels[d];
      }
    }
  }

  lemma RefreshedFrom(L: Layout, meas: Values, good: map<string, Values>, p: Phase, io: Tags)
    requires L.Apart() && ReadOver(L, p) && MeasuredFrom(L, meas, good) && StillInStore(L, p, io)
    ensures MeasuredFrom(L, Refreshed(meas, L.Measured(), p.failed, io), good + (p.polled - p.failed))
  {
    forall d, n | d in L.channels && n in L.Measured()[d]
      ensures var after, now := Refreshed(meas, L.Measured(), p.failed, io), good + (p.polled - p.failed);
              n in after && if d in now then n in now[d] && after[n] == now[d][n] else after[n] == Fin(0.0)
    {
      assert forall e :: e in L.Measured() && n in L.Measured()[e] ==> e == d;
      assert InPoll(L, p, d) ==> Holds(io, L.Measured()[d], p.polled[d]);
    }
  }

  lemma StampedOn(L: Layout, lastOk: map<string, real>, stamps: map<string, real>, good: map<string, Values>, p: Phase, at: real)
    requires ReadOver(L, p) && StampedFrom(L, lastOk, stamps) && good.Keys == stamps.Keys
    ensures StampedFrom(L, Stamped(lastOk, p.failed, at), stamps + StampedAt(p, at))
    ensures (good + (p.polled - p.failed)).Keys == (stamps + StampedAt(p, at)).Keys
  {}

  predicate Reads(e: Event) {
    e.Poll? || e.EndRead?
  }

  lemma PollsKept(L: Layout, s: Sys, e: Event)
    requires !e.EndRead?
    ensures Apply(L, s, e).past.good == s.past.good && Apply(L, s, e).past.stamps == s.past.stamps
  {
    hide Foreground, CommandPass, FlushPass, ReadPass;
  }

  /** A poll is moved on by its own steps. */
  lemma PolledKept(L: Layout, s: Sys, e: Event, d: string)
    requires !Reads(e) && InPoll(L, Apply(L, s, e).phase, d)
    ensures InPoll(L, s.phase, d) && Apply(L, s, e).phase.polled == s.phase.polled
  {
    PhaseStep(L, s, e);
    hide Apply, Targets, CommandsOver, FlushOver, TagsOf;
  }

  /** The readings of a poll stay where they are. */
  lemma ReadingKept(L: Layout, s: Sys, e: Event, d: string, n: string)
    requires Shaped(L, s) && !e.Poll? && !Overwrites(L, s, e) && InPoll(L, s.phase, d) && n in L.Measured()[d]
    requires n in s.phase.polled[d] && n in s.io && s.io[n].value == s.phase.polled[d][n]
    ensures n in IoAfter(L, s, e) && IoAfter(L, s, e)[n].value == s.io[n].value
  {
    assert !Commandable(s.io, n);
    if e.CopyIn? && L.shared && n in s.fetched { assert e.name == n ==> !ReadAnew(L, s.phase, n, s.fetched[n]); }
    hide Loaded, LoadedAll, PolledIn, TagsOf, MirrorFits, PhaseFits;
  }

  lemma OthersHold(L: Layout, s: Sys, e: Event)
    requires Shaped(L, s) && ReadsHold(L, s) && !Reads(e) && !Overwrites(L, s, e)
    ensures ReadsHold(L, Apply(L, s, e))
  {
    var t := Apply(L, s, e);
    ReadingsKept(L, s, e);
    PollsKept(L, s, e);
    IoStep(L, s, e);
    forall d | InPoll(L, t.phase, d) ensures Holds(t.io, L.Measured()[d], t.phase.polled[d]) {
      PolledKept(L, s, e, d);
      forall n | n in L.Measured()[d]
        ensures n in s.phase.polled[d] && n in t.io && t.io[n].value == s.phase.polled[d][n]
      {
        assert Holds(s.io, L.Measured()[d], s.phase.polled[d]);
        ReadingKept(L, s, e, d, n);
      }
    }
    hide Apply, InPoll, MeasuredFrom, StampedFrom, Shaped, Overwrites, IoAfter, Agree;
  }

  lemma EndReadHolds(L: Layout, s: Sys, at: real)
    requires Shaped(L, s) && ReadsHold(L, s)
    ensures ReadsHold(L, Apply(L, s, EndRead(at)))
  {
    assert L.Apart();
    hide Apply, MeasuredFrom, StampedFrom, Refreshed, Stamped, StampedAt, Shaped, Holds;
    if ReadOver(L, s.phase) {
      EndReadStep(L, s, at);
      RefreshedFrom(L, s.meas, s.past.good, s.phase, s.io);
      StampedOn(L, s.lastOk, s.past.stamps, s.past.good, s.phase, at);
    } else {
      NotOver(L, s, at);
    }
  }

  lemma PollHolds(L: Layout, s: Sys, e: Event)
    requires Shaped(L, s) && ReadsHold(L, s) && e.Poll?
    ensures ReadsHold(L, Apply(L, s, e))
  {
    ReadingsKept(L, s, e);
    PollsKept(L, s, e);
    IoStep(L, s, e);
    PhaseStep(L, s, e);
    if Pollable(L, s.phase, e.device, e.values) { PolledStays(L, s.phase, s.live, s.io, e.device, e.values); }
    hide Apply, PolledIn, AfterPoll, StillInStore, Pollable, MeasuredFrom, StampedFrom, Agree, MirrorFits, PhaseFits;
  }

  lemma ReadsHoldStep(L: Layout, s: Sys, e: Event)
    requires Shaped(L, s) && ReadsHold(L, s) && !Overwrites(L, s, e)
    ensures ReadsHold(L, Apply(L, s, e))
  {
    if e.EndRead? {
      EndReadHolds(L, s, e.at);
    } else if e.Poll? {
      PollHolds(L, s, e);
    } else {
      OthersHold(L, s, e);
    }
    hide Apply, Shaped, ReadsHold, Overwrites;
  }

  lemma {:induction false} StillReads(L: Layout, s: Sys, es: seq<Event>)
    requires Shaped(L, s) && ReadsHold(L, s) && Unspoilt(L, s, es)
    ensures ReadsHold(L, Run(L, s, es))
  {
    if es != [] {
      var init, last := es[..|es| - 1], es[|es| - 1];
      UnspoiltInit(L, s, es);
      hide Apply, Shaped, ReadsHold, Unspoilt, Overwrites;
      StillReads(L, s, init);
      ShapedRun(L, s, init);
      ReadsHoldStep(L, Run(L, s, init), last);
    }
  }

  /** Each device's cached measurements all come from its last fully good poll, on every
      interleaving in which no reading is overwritten before it is committed. */
  lemma SnapshotsConsistent(L: Layout, s: Sys, es: seq<Event>)
    requires Initial(L, s) && Unspoilt(L, s, es)
    ensures ReadsHold(L, Run(L, s, es))
  {
    ReadsAtFirst(L, s);
    StillReads(L, s, es);
  }

  lemma ReadsAtFirst(L: Layout, s: Sys)
    requires Initial(L, s)
    ensures ReadsHold(L, s)
  {}

  // --- ages ------------------------------------------------------------------------------------

  ghost predicate Dated(stamps: map<string, real>) {
    forall d :: d in stamps ==> stamps[d] > 0.0
  }

  /** The clock never shows zero when a poll ends: zero is the stamp of "never". */
  ghost predicate ClockRuns(es: seq<Event>) {
    forall i :: 0 <= i < |es| ==> es[i].EndRead? ==> es[i].at > 0.0
  }

  lemma ClockBefore(a: seq<Event>, b: seq<Event>)
    requires ClockRuns(a + b)
    ensures ClockRuns(a)
  {
    forall i | 0 <= i < |a| && a[i].EndRead? ensures a[i].at > 0.0 {
      assert (a + b)[i] == a[i];
    }
  }

  lemma StampsStep(L: Layout, s: Sys, e: Event)
    requires StampedFrom(L, s.lastOk, s.past.stamps) && s.past.good.Keys == s.past.stamps.Keys
    ensures var t := Apply(L, s, e);
            StampedFrom(L, t.lastOk, t.past.stamps) && t.past.good.Keys == t.past.stamps.Keys
  {
    hide Apply, Stamped, StampedAt, StampedFrom, Refreshed;
    if !e.EndRead? {
      ReadingsKept(L, s, e);
      PollsKept(L, s, e);
    } else if ReadOver(L, s.phase) {
      EndReadStep(L, s, e.at);
      StampedOn(L, s.lastOk, s.past.stamps, s.past.good, s.phase, e.at);
    } else {
      NotOver(L, s, e.at);
    }
  }

  lemma {:induction false} StampsRun(L: Layout, s: Sys, es: seq<Event>)
    requires Initial(L, s) && ClockRuns(es)
    ensures var t := Run(L, s, es);
            StampedFrom(L, t.lastOk, t.past.stamps) && t.past.good.Keys == t.past.stamps.Keys && Dated(t.past.stamps)
  {
    if es != [] {
      var init, last := es[..|es| - 1], es[|es| - 1];
      assert ClockRuns(init) && (last.EndRead? ==> last.at > 0.0);
      StampsRun(L, s, init);
      StampsStep(L, Run(L, s, init), last);
      DatedStep(L, Run(L, s, init), last);
      hide StampedFrom, ClockRuns, Initial, Dated, Apply;
    }
  }

  lemma DatedStep(L: Layout, s: Sys, e: Event)
    requires Dated(s.past.stamps) && (e.EndRead? ==> e.at > 0.0)
    ensures Dated(Apply(L, s, e).past.stamps)
  {
    hide Apply, Refreshed, Stamped;
    if !e.EndRead? {
      PollsKept(L, s, e);
    } else if ReadOver(L, s.phase) {
      EndReadStep(L, s, e.at);
    } else {
      NotOver(L, s, e.at);
    }
  }

  /** Infinite exactly until every device has read fully once, and from then on the time since
      the oldest of the last good polls. */
  ghost predicate StalestAge(L: Layout, age: Ext, stamps: map<string, real>, now: real) {
    && (age == PosInf <==> exists d :: d in L.channels && d !in stamps)
    && (age != PosInf ==>
          && (forall d :: d in L.channels ==> d in stamps && Le(Fin(now - stamps[d]), age))
          && exists d :: d in stamps && age == Fin(now - stamps[d]))
  }

  /** The global age is that of the stalest device; the worker's store need not be private for it. */
  lemma GlobalAgeIsStalest(L: Layout, s: Sys, es: seq<Event>, now: real)
    requires Initial(L, s) && L.channels != map[] && ClockRuns(es)
    ensures StalestAge(L, GlobalAge(Run(L, s, es).lastOk, now), Run(L, s, es).past.stamps, now)
  {
    StampsRun(L, s, es);
    AgeOfStamps(L, Run(L, s, es).lastOk, Run(L, s, es).past.stamps, now);
    hide *;
  }

  lemma AgeOfStamps(L: Layout, lastOk: map<string, real>, stamps: map<string, real>, now: real)
    requires StampedFrom(L, lastOk, stamps) && L.channels != map[] && Dated(stamps)
    ensures StalestAge(L, GlobalAge(lastOk, now), stamps, now)
  {
    var age := GlobalAge(lastOk, now);
    assert lastOk.Keys != {};
    assert IsAgeOf(age, lastOk, lastOk.Keys, now);
    hide GlobalAge, IsAgeOf;
    StalestIsAge(L, lastOk, stamps, age, now);
  }

  lemma StalestIsAge(L: Layout, lastOk: map<string, real>, stamps: map<string, real>, age: Ext, now: real)
    requires StampedFrom(L, lastOk, stamps) && Dated(stamps) && lastOk != map[] && IsAgeOf(age, lastOk, lastOk.Keys, now)
    ensures StalestAge(L, age, stamps, now)
  {
    var d :| d in lastOk && age == AgeOf(lastOk[d], now);
    forall e | e in L.channels ensures Le(AgeOf(lastOk[e], now), age) {}
    forall e | e in L.channels && e !in stamps ensures age == PosInf {
      assert AgeOf(lastOk[e], now) == PosInf;
    }
  }
}
