/** The keep-alive cadence of healthy operation against the write-age guard and the device
    watchdog (src/pyems/drivers/cached.py and the validators of src/pyems/ems.py). */
module KeepAlive {
  import opened Num
  import opened Channels
  import opened CachedDriver
  import opened Safety

  /** One worker pass: what was published before it, its start, what is published while it
      writes, and the end of its flush, if anything was due. */
  datatype Pass = Pass(publish: Values, start: real, late: Values, end: real)

  datatype Keeper = Keeper(mirror: Mirror, lastWriteOk: real)

  function Passed(k: Keeper, p: Pass, rewrite: real): Keeper {
    var m := Published(k.mirror, p.publish);
    var pending := Due(m, p.start, rewrite);
    var later := Published(m, p.late);
    if pending == map[] then Keeper(later, k.lastWriteOk) else Keeper(Settled(later, pending, p.end), p.end)
  }

  function Fresh(): Keeper {
    Keeper(Mirror(map[], {}, map[], false), 0.0)
  }

  function After(ps: seq<Pass>, rewrite: real): Keeper {
    if ps == [] then Fresh() else Passed(After(ps[..|ps| - 1], rewrite), ps[|ps| - 1], rewrite)
  }

  /** Each flush succeeds within one poll, and passes start at most one poll apart. */
  ghost predicate Healthy(ps: seq<Pass>, poll: real) {
    && (forall i :: 0 <= i < |ps| ==> 0.0 < ps[i].start <= ps[i].end <= ps[i].start + poll)
    && forall i :: 0 < i < |ps| ==> ps[i - 1].end <= ps[i].start <= ps[i - 1].start + poll
  }

  /** No rewrite was overdue at the last start, and the last write is the newest of all. */
  ghost predicate Kept(k: Keeper, start: real, rewrite: real) {
    && (forall n :: n in k.mirror.flushedAt ==>
          start - k.mirror.flushedAt[n] < rewrite && k.mirror.flushedAt[n] <= k.lastWriteOk)
    && k.mirror.flushedAt.Keys <= k.mirror.cache.Keys
    && (k.mirror.ready || k.mirror.cache == map[])
    && (if k.mirror.flushedAt == map[] then k.lastWriteOk == 0.0 else k.lastWriteOk > 0.0)
  }

  lemma PassedKeeps(k: Keeper, p: Pass, before: real, rewrite: real)
    requires rewrite > 0.0 && 0.0 < p.start <= p.end && k.lastWriteOk <= p.start && Kept(k, before, rewrite)
    ensures Kept(Passed(k, p, rewrite), p.start, rewrite) && Passed(k, p, rewrite).lastWriteOk <= p.end
  {
    var m := Published(k.mirror, p.publish);
    var pending := Due(m, p.start, rewrite);
    forall n | n in k.mirror.flushedAt && n !in pending ensures p.start - k.mirror.flushedAt[n] < rewrite {
      assert n in m.cache;
    }
    if pending != map[] {
      assert exists n :: n in pending;
    }
  }

  lemma {:induction false} AfterKept(ps: seq<Pass>, poll: real, rewrite: real)
    requires rewrite > 0.0 && Healthy(ps, poll)
    ensures var k := After(ps, rewrite);
            && Kept(k, if ps == [] then 0.0 else ps[|ps| - 1].start, rewrite)
            && k.lastWriteOk <= if ps == [] then 0.0 else ps[|ps| - 1].end
  {
    if ps != [] {
      var init, last := ps[..|ps| - 1], ps[|ps| - 1];
      AfterKept(init, poll, rewrite);
      PassedKeeps(After(init, rewrite), last, if init == [] then 0.0 else init[|init| - 1].start, rewrite);
    }
  }

  /** How long a setpoint already written has waited when the next flush of a run ends. */
  function Wait(ps: seq<Pass>, rewrite: real, n: string): real
    requires ps != [] && n in After(ps[..|ps| - 1], rewrite).mirror.flushedAt
  {
    ps[|ps| - 1].end - After(ps[..|ps| - 1], rewrite).mirror.flushedAt[n]
  }

  /** In healthy operation every cached setpoint is written again in less than the rewrite
      period and two polls. */
  lemma RewrittenInTime(ps: seq<Pass>, poll: real, rewrite: real, n: string)
    requires rewrite > 0.0 && Healthy(ps, poll) && ps != []
    requires n in After(ps[..|ps| - 1], rewrite).mirror.flushedAt
    ensures Wait(ps, rewrite, n) < rewrite + 2.0 * poll
  {
    var init := ps[..|ps| - 1];
    AfterKept(init, poll, rewrite);
    if init != [] { assert ps[|ps| - 2] == init[|init| - 1]; }
  }

  // --- the validators ---------------------------------------------------------------------------

  /** validate_setpoint_keepalive. */
  predicate KeepaliveAccepted(rewrite: real, watchdog: Option<real>) {
    watchdog.Some? ==> 2.0 * rewrite <= watchdog.value
  }

  /** validate_write_age_guard. */
  predicate WriteAgeAccepted(rewrite: real, poll: real, maxAge: Option<real>, watchdog: Option<real>) {
    maxAge.Some? ==> rewrite + 2.0 * poll <= maxAge.value && (watchdog.Some? ==> maxAge.value <= watchdog.value)
  }

  predicate WriteFault(maxAge: real, lastWriteOk: real, at: real) {
    Lt(Fin(maxAge), AgeOf(lastWriteOk, at))
  }

  /** The interlock without its write-age guard. */
  function Unguarded(g: Guards): Guards {
    g.(maxWriteAge := None)
  }

  /** The guard adds its own fault to the verdict, and nothing else. */
  lemma GuardAddsFault(g: Guards, lock: Interlock, tags: Tags, now: real, lastWriteOk: real, at: real)
    requires Readable(g, tags) && g.maxWriteAge.Some? && tags[WRITE_AGE].value == AgeOf(lastWriteOk, at)
    ensures SafetyVerdict(g, lock, tags, now).tripped <==>
            WriteFault(g.maxWriteAge.value, lastWriteOk, at) || SafetyVerdict(Unguarded(g), lock, tags, now).tripped
  {
    assert Inspected(g, lock.memory, tags, now) == Inspected(Unguarded(g), lock.memory, tags, now);
    hide Inspected, AgeOf;
  }

  /** A guard the validator accepts never trips in healthy operation, from the first flush on:
      up to the end of the next flush the write age stays below rewrite + 2 polls. The interlock
      then trips exactly when it would without the guard. Before the first flush it does trip. */
  lemma AcceptedGuardNeverTrips(
    ps: seq<Pass>, poll: real, rewrite: real, watchdog: Option<real>, at: real,
    g: Guards, lock: Interlock, tags: Tags, now: real)
    requires rewrite > 0.0 && Healthy(ps, poll) && ps != [] && ps[|ps| - 1].start <= at <= ps[|ps| - 1].start + 2.0 * poll
    requires WriteAgeAccepted(rewrite, poll, g.maxWriteAge, watchdog) && g.maxWriteAge.Some? && Readable(g, tags)
    requires tags[WRITE_AGE].value == AgeOf(After(ps, rewrite).lastWriteOk, at)
    ensures SafetyVerdict(g, lock, tags, now).tripped <==>
            After(ps, rewrite).mirror.flushedAt == map[] || SafetyVerdict(Unguarded(g), lock, tags, now).tripped
  {
    AcceptedNeverFaults(ps, poll, rewrite, g.maxWriteAge.value, watchdog, at);
    GuardAddsFault(g, lock, tags, now, After(ps, rewrite).lastWriteOk, at);
    hide *;
  }

  lemma AcceptedNeverFaults(ps: seq<Pass>, poll: real, rewrite: real, maxAge: real, watchdog: Option<real>, at: real)
    requires rewrite > 0.0 && Healthy(ps, poll) && ps != [] && WriteAgeAccepted(rewrite, poll, Some(maxAge), watchdog)
    requires ps[|ps| - 1].start <= at <= ps[|ps| - 1].start + 2.0 * poll
    ensures var k := After(ps, rewrite);
            WriteFault(maxAge, k.lastWriteOk, at) <==> k.mirror.flushedAt == map[]
  {
    AfterKept(ps, poll, rewrite);
    var k := After(ps, rewrite);
    if k.mirror.flushedAt != map[] {
      var n :| n in k.mirror.flushedAt;
      assert k.mirror.flushedAt[n] <= k.lastWriteOk;
    }
  }

  // --- the bound is exact ------------------------------------------------------------------------

  function Quiet(at: real): Pass {
    Pass(map[], at, map[], at)
  }

  /** Written once at time start, then looked at n times, step apart, without being due. */
  function Idling(name: string, v: Ext, start: real, step: real, n: nat): seq<Pass> {
    if n == 0 then [Pass(map[name := v], start, map[], start)]
    else Idling(name, v, start, step, n - 1) + [Quiet(start + Times(n, step))]
  }

  function Written(name: string, v: Ext, start: real): Keeper {
    Keeper(Mirror(map[name := v], {}, map[name := start], true), start)
  }

  lemma FirstWrite(name: string, v: Ext, start: real, rewrite: real)
    ensures Passed(Fresh(), Pass(map[name := v], start, map[], start), rewrite) == Written(name, v, start)
  {
    var m := Published(Fresh().mirror, map[name := v]);
    assert m == Mirror(map[name := v], {name}, map[], true);
    assert Due(m, start, rewrite) == map[name := v];
    assert Published(m, map[]) == m;
    assert Settled(m, map[name := v], start) == Written(name, v, start).mirror;
  }

  lemma NotYetDue(name: string, v: Ext, start: real, at: real, rewrite: real)
    requires at - start < rewrite
    ensures Passed(Written(name, v, start), Quiet(at), rewrite) == Written(name, v, start)
  {
    var m := Written(name, v, start).mirror;
    assert Published(m, map[]) == m && Due(m, at, rewrite) == map[];
  }

  /** A healthy run that has ended at the given time with nothing written but the one value. */
  ghost predicate Idle(ps: seq<Pass>, name: string, v: Ext, start: real, end: real, poll: real, rewrite: real) {
    && ps != [] && Healthy(ps, poll) && ps[|ps| - 1].start == ps[|ps| - 1].end == end
    && After(ps, rewrite) == Written(name, v, start)
  }

  lemma IdlingStarts(name: string, v: Ext, start: real, step: real, poll: real, rewrite: real)
    requires start > 0.0 && poll >= 0.0
    ensures Idle(Idling(name, v, start, step, 0), name, v, start, start, poll, rewrite)
  {
    FirstWrite(name, v, start, rewrite);
    var first := Pass(map[name := v], start, map[], start);
    assert [first][..0] == [];
    assert After([first], rewrite) == Passed(After([], rewrite), first, rewrite);
    hide Passed;
  }

  lemma IdlingGoesOn(ps: seq<Pass>, name: string, v: Ext, start: real, end: real, next: real, poll: real, rewrite: real)
    requires Idle(ps, name, v, start, end, poll, rewrite) && end <= next <= end + poll && next - start < rewrite && poll >= 0.0
    ensures Idle(ps + [Quiet(next)], name, v, start, next, poll, rewrite)
  {
    NotYetDue(name, v, start, next, rewrite);
    OneMorePass(ps, Quiet(next), poll, rewrite);
    hide Healthy, After, Passed;
  }

  lemma {:induction false} IdlingHealthy(name: string, v: Ext, start: real, step: real, n: nat, poll: real, rewrite: real)
    requires start > 0.0 && 0.0 <= step <= poll && Times(n, step) < rewrite
    ensures Idle(Idling(name, v, start, step, n), name, v, start, start + Times(n, step), poll, rewrite)
  {
    hide Idle;
    if n == 0 {
      IdlingStarts(name, v, start, step, poll, rewrite);
    } else {
      TimesGrow(n, step);
      IdlingHealthy(name, v, start, step, n - 1, poll, rewrite);
      IdlingGoesOn(Idling(name, v, start, step, n - 1), name, v, start, start + Times(n - 1, step),
                   start + Times(n, step), poll, rewrite);
    }
  }

  lemma TimesGrow(n: nat, step: real)
    requires n > 0 && step >= 0.0
    ensures 0.0 <= Times(n - 1, step) <= Times(n, step) == Times(n - 1, step) + step
  {
    TimesIsProduct(n - 1, step);
  }

  lemma OneMorePass(ps: seq<Pass>, p: Pass, poll: real, rewrite: real)
    requires Healthy(ps, poll) && ps != [] && p.start <= p.end <= p.start + poll
    requires ps[|ps| - 1].end <= p.start <= ps[|ps| - 1].start + poll
    ensures Healthy(ps + [p], poll) && After(ps + [p], rewrite) == Passed(After(ps, rewrite), p, rewrite)
  {
    assert (ps + [p])[..|ps|] == ps;
    hide Passed;
  }

  /** Enough steps of at most a poll reach any distance. */
  lemma Steps(distance: real, poll: real) returns (n: nat, step: real)
    requires distance >= 0.0 && poll > 0.0
    ensures 0.0 <= step <= poll && Times(n, step) == distance
  {
    n := (distance / poll).Floor + 1;
    step := distance / (n as real);
    TimesIsProduct(n, step);
    assert distance / poll < n as real;
    assert distance == (distance / poll) * poll;
    QuotientBelow(distance, poll, n as real);
  }

  lemma QuotientBelow(d: real, poll: real, n: real)
    requires d >= 0.0 && poll > 0.0 && n > 0.0 && d / poll < n
    ensures 0.0 <= d / n <= poll && n * (d / n) == d
  {
    var q := d / poll;
    assert q * poll == d;
    ScaledLess(q, n, poll);
    var r := d / n;
    assert r * n == d;
    if r > poll { ScaledLess(poll, r, n); }
    if r < 0.0 { ScaledLess(r, 0.0, n); }
  }

  lemma ScaledLess(a: real, b: real, c: real)
    requires a < b && c > 0.0
    ensures a * c < b * c
  {
    assert (b - a) * c > 0.0;
  }

  /** Any shorter bound fails: some healthy run waits longer. */
  lemma WaitsAlmostThatLong(name: string, v: Ext, poll: real, rewrite: real, bound: real) returns (ps: seq<Pass>)
    requires poll > 0.0 && rewrite > 0.0 && bound < rewrite + 2.0 * poll
    ensures Healthy(ps, poll) && ps != [] && name in After(ps[..|ps| - 1], rewrite).mirror.flushedAt
    ensures Wait(ps, rewrite, name) > bound
    ensures After(ps[..|ps| - 1], rewrite).lastWriteOk == 1.0
    ensures ps[|ps| - 1].end == Wait(ps, rewrite, name) + 1.0
  {
    var short := Max(0.0, (Max(bound - 2.0 * poll, 0.0) + rewrite) / 2.0);
    var n, step := Steps(short, poll);
    IdlingHealthy(name, v, 1.0, step, n, poll, rewrite);
    var idle := Idling(name, v, 1.0, step, n);
    var last := Pass(map[], 1.0 + short + poll, map[], 1.0 + short + 2.0 * poll);
    ps := idle + [last];
    OneMorePass(idle, last, poll, rewrite);
    hide Healthy, After, Times, Passed, Idling;
    assert ps[..|ps| - 1] == idle && ps[|ps| - 1] == last;
  }

  lemma FloorIsExact(name: string, v: Ext, poll: real, rewrite: real, maxAge: real)
    requires poll > 0.0 && rewrite > 0.0
    ensures (forall ps: seq<Pass> :: Flushed(ps, poll, rewrite) ==>
               !WriteFault(maxAge, LastWritten(ps, rewrite), ps[|ps| - 1].end))
            <==> WriteAgeAccepted(rewrite, poll, Some(maxAge), None)
  {
    if WriteAgeAccepted(rewrite, poll, Some(maxAge), None) {
      forall ps: seq<Pass> | Flushed(ps, poll, rewrite) ensures !WriteFault(maxAge, LastWritten(ps, rewrite), ps[|ps| - 1].end) {
        var init := ps[..|ps| - 1];
        assert Healthy(init, poll) && init != [] && ps[|ps| - 2] == init[|init| - 1];
        AcceptedNeverFaults(init, poll, rewrite, maxAge, None, ps[|ps| - 1].end);
      }
    } else {
      var ps := WaitsAlmostThatLong(name, v, poll, rewrite, maxAge);
      assert Flushed(ps, poll, rewrite) && WriteFault(maxAge, LastWritten(ps, rewrite), ps[|ps| - 1].end);
    }
  }

  /** A healthy run that has written something before its last pass. */
  ghost predicate Flushed(ps: seq<Pass>, poll: real, rewrite: real) {
    Healthy(ps, poll) && ps != [] && After(ps[..|ps| - 1], rewrite).mirror.flushedAt != map[]
  }

  function LastWritten(ps: seq<Pass>, rewrite: real): real
    requires ps != []
  {
    After(ps[..|ps| - 1], rewrite).lastWriteOk
  }

  /** Nothing but the write age can be wrong. */
  ghost predicate OtherwiseFine(g: Guards, lock: Interlock, tags: Tags, now: real)
    requires Readable(g, tags)
  {
    WRITE_AGE !in g.watched && WRITE_AGE !in g.ageLimits && !SafetyVerdict(Unguarded(g), lock, tags, now).tripped
  }

  lemma {:induction false} LooksSame(memory: Memory, watched: seq<string>, tags: Tags, age: Ext, now: real, limit: real)
    requires WRITE_AGE !in watched && AllIn(watched, tags)
    ensures LookedAll(memory, watched, tags, now, limit) == LookedAll(memory, watched, Observed(tags, WRITE_AGE, age), now, limit)
  {
    if watched != [] {
      assert watched[|watched| - 1] in watched;
      LooksSame(memory, watched[..|watched| - 1], tags, age, now, limit);
    }
  }

  lemma FineAtAnyAge(g: Guards, lock: Interlock, tags: Tags, now: real, lastWriteOk: real, at: real)
    requires Readable(g, tags) && g.maxWriteAge.Some? && OtherwiseFine(g, lock, tags, now)
    ensures var aged := Observed(tags, WRITE_AGE, AgeOf(lastWriteOk, at));
            && Readable(g, aged)
            && (SafetyVerdict(g, lock, aged, now).tripped <==> WriteFault(g.maxWriteAge.value, lastWriteOk, at))
  {
    var age := AgeOf(lastWriteOk, at);
    if g.maxFrozen.Some? { LooksSame(lock.memory, g.watched, tags, age, now, g.maxFrozen.value); }
    hide AgeOf, LookedAll;
    assert Readable(g, Observed(tags, WRITE_AGE, age));
    GuardAddsFault(g, lock, Observed(tags, WRITE_AGE, age), now, lastWriteOk, at);
  }

  /** The floor validate_write_age_guard demands is the least there is: on tags with nothing else
      wrong the interlock stays healthy to the end of every pass of every healthy run, once something
      was written, if and only if its threshold is at least rewrite + 2 polls. */
  lemma GuardFloorIsExact(
    name: string, v: Ext, poll: real, rewrite: real, g: Guards, lock: Interlock, tags: Tags, now: real)
    requires poll > 0.0 && rewrite > 0.0 && g.maxWriteAge.Some? && Readable(g, tags) && OtherwiseFine(g, lock, tags, now)
    ensures (forall ps: seq<Pass> :: Flushed(ps, poll, rewrite) ==>
               var aged := Observed(tags, WRITE_AGE, AgeOf(LastWritten(ps, rewrite), ps[|ps| - 1].end));
               Readable(g, aged) && !SafetyVerdict(g, lock, aged, now).tripped)
            <==> WriteAgeAccepted(rewrite, poll, g.maxWriteAge, None)
  {
    FloorIsExact(name, v, poll, rewrite, g.maxWriteAge.value);
    forall ps: seq<Pass> | Flushed(ps, poll, rewrite)
      ensures var aged := Observed(tags, WRITE_AGE, AgeOf(LastWritten(ps, rewrite), ps[|ps| - 1].end));
              Readable(g, aged) && (SafetyVerdict(g, lock, aged, now).tripped <==>
                                    WriteFault(g.maxWriteAge.value, LastWritten(ps, rewrite), ps[|ps| - 1].end))
    {
      FineAtAnyAge(g, lock, tags, now, LastWritten(ps, rewrite), ps[|ps| - 1].end);
    }
    hide WriteFault, SafetyVerdict, Readable, Observed, AgeOf, LastWritten, OtherwiseFine;
  }

  /** The ceiling it demands: on tags with nothing else wrong the interlock trips no later than the
      watchdog of a device that is no longer written, if and only if the threshold does not exceed the
      watchdog's period. */
  lemma GuardBeatsWatchdogIff(g: Guards, lock: Interlock, tags: Tags, now: real, rewrite: real, poll: real, watchdog: real)
    requires g.maxWriteAge.Some? && Readable(g, tags) && OtherwiseFine(g, lock, tags, now) && watchdog > 0.0
    requires rewrite + 2.0 * poll <= g.maxWriteAge.value
    ensures WriteAgeAccepted(rewrite, poll, g.maxWriteAge, Some(watchdog)) <==>
            forall last, at :: last > 0.0 && at - last > watchdog ==>
              var aged := Observed(tags, WRITE_AGE, AgeOf(last, at));
              Readable(g, aged) && SafetyVerdict(g, lock, aged, now).tripped
  {
    forall last: real, at: real
      ensures var aged := Observed(tags, WRITE_AGE, AgeOf(last, at));
              Readable(g, aged) && (SafetyVerdict(g, lock, aged, now).tripped <==> WriteFault(g.maxWriteAge.value, last, at))
    {
      FineAtAnyAge(g, lock, tags, now, last, at);
    }
    hide SafetyVerdict, Readable, Observed, OtherwiseFine;
    if g.maxWriteAge.value > watchdog { assert !WriteFault(g.maxWriteAge.value, 1.0, 1.0 + g.maxWriteAge.value); }
  }

  /** No healthy run leaves a setpoint unwritten for longer than the watchdog waits. */
  ghost predicate NeverStarves(poll: real, rewrite: real, watchdog: real, n: string) {
    forall ps: seq<Pass> :: Healthy(ps, poll) && ps != [] && n in After(ps[..|ps| - 1], rewrite).mirror.flushedAt ==>
      Wait(ps, rewrite, n) <= watchdog
  }

  /** A configuration never starves the watchdog in healthy operation, if and only if its period
      is at least the rewrite period and two polls. */
  lemma NeverStarvesIff(poll: real, rewrite: real, watchdog: real, n: string, v: Ext)
    requires poll > 0.0 && rewrite > 0.0
    ensures NeverStarves(poll, rewrite, watchdog, n) <==> rewrite + 2.0 * poll <= watchdog
  {
    if rewrite + 2.0 * poll <= watchdog {
      forall ps: seq<Pass> | Healthy(ps, poll) && ps != [] && n in After(ps[..|ps| - 1], rewrite).mirror.flushedAt
        ensures Wait(ps, rewrite, n) <= watchdog
      {
        RewrittenInTime(ps, poll, rewrite, n);
      }
    } else {
      var ps := WaitsAlmostThatLong(n, v, poll, rewrite, watchdog);
    }
    hide Healthy, After;
  }

  /** validate_setpoint_keepalive asks for half the watchdog period only. That is enough for
      every watchdog it accepts exactly when the rewrite period is at least two polls. */
  lemma KeepaliveFeedsWatchdogIff(poll: real, rewrite: real, n: string, v: Ext)
    requires poll > 0.0 && rewrite > 0.0
    ensures (forall watchdog :: KeepaliveAccepted(rewrite, Some(watchdog)) ==> NeverStarves(poll, rewrite, watchdog, n))
            <==> rewrite >= 2.0 * poll
  {
    forall watchdog ensures NeverStarves(poll, rewrite, watchdog, n) <==> rewrite + 2.0 * poll <= watchdog {
      NeverStarvesIff(poll, rewrite, watchdog, n, v);
    }
    assert KeepaliveAccepted(rewrite, Some(2.0 * rewrite));
    hide NeverStarves;
  }
}
