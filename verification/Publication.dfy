/** From a live setpoint to the device, past a worker that writes the same channel objects
    (src/pyems/drivers/cached.py, src/pyems/ems.py): which value is published, in any layout and
    on every interleaving. */
module Publication {
  import opened Num
  import opened Channels
  import opened CachedDriver
  import opened Interleaving
  import opened SetpointFlow

  // --- what the worker puts on a live setpoint ------------------------------------------------------

  /** In a shared store, what a flush loads for the register and what a poll reads from it. */
  function Puts(L: Layout, s: Sys, e: Event, n: string): Option<Ext>
    requires n in s.io
  {
    match e
    case LoadDue =>
      if L.shared && s.phase.Flushing? && !s.phase.loaded && n in s.phase.pending
      then Some(Clamped(s.io, n, s.phase.pending[n])) else None
    case Poll(d, values) => if L.shared && Pollable(L, s.phase, d, values) && n in values then values[n] else None
    case _ => None
  }

  /** A step puts another value than v on the live setpoint. */
  predicate Replaces(L: Layout, s: Sys, e: Event, n: string, v: Ext)
    requires n in s.io
  {
    Puts(L, s, e, n).Some? && Puts(L, s, e, n).value != v
  }

  function Over(put: Option<Ext>, v: Ext): Ext {
    if put.Some? then put.value else v
  }

  predicate Sets(e: Event, n: string) {
    e.LiveSet? && e.name == n
  }

  lemma LoadDuePuts(L: Layout, s: Sys, n: string)
    requires (L.shared ==> Agree(s.live, s.io)) && n in s.live && Commandable(s.io, n)
    ensures var t := Apply(L, s, LoadDue);
            n in t.live && t.live[n].value == Over(Puts(L, s, LoadDue, n), s.live[n].value)
  {
    LoadDueStep(L, s);
    hide Apply;
  }

  lemma PollPuts(L: Layout, s: Sys, d: string, values: map<string, Option<Ext>>, n: string)
    requires (L.shared ==> Agree(s.live, s.io)) && n in s.live && n in s.io
    ensures var t := Apply(L, s, Poll(d, values));
            n in t.live && t.live[n].value == Over(Puts(L, s, Poll(d, values), n), s.live[n].value)
  {
    hide Apply, Pollable;
    PollStep(L, s, d, values);
  }

  lemma PutsStep(L: Layout, s: Sys, e: Event, n: string)
    requires Shaped(L, s) && n in L.writable && !Sets(e, n)
    ensures n in s.io && n in s.live && n in Apply(L, s, e).live
    ensures Apply(L, s, e).live[n].value == Over(Puts(L, s, e, n), s.live[n].value)
  {
    assert Commandable(s.io, n);
    hide Apply, StoresFit, MirrorFits, PhaseFits, TagsOf, Clamped, Pollable, Agree;
    match e
    case LiveSet(m, v) => SetStep(L, s, m, v);
    case CopyIn(m) => CopyStep(L, s, m);
    case Observe(m, v) => ObserveStep(L, s, m, v);
    case LoadCommands => LiveLoaded(L, s, n);
    case LoadDue => LoadDuePuts(L, s, n);
    case Poll(d, values) => PollPuts(L, s, d, values, n);
    case _ => StoresKept(L, s, e);
  }

  /** A live setpoint keeps its value through a step that does not command it, exactly if the
      worker puts no other value on it. */
  lemma KeptIffNotReplaced(L: Layout, s: Sys, e: Event, n: string)
    requires Shaped(L, s) && n in L.writable && !Sets(e, n)
    ensures n in s.io && n in s.live && n in Apply(L, s, e).live
    ensures Apply(L, s, e).live[n].value == s.live[n].value <==> !Replaces(L, s, e, n, s.live[n].value)
  {
    PutsStep(L, s, e, n);
    hide Apply, Shaped, Puts;
  }

  /** The last value the worker put on the live setpoint during a run, if any. */
  function LastPut(L: Layout, s: Sys, n: string, es: seq<Event>): Option<Ext> {
    if es == [] then None
    else
      var before, e := Run(L, s, es[..|es| - 1]), es[|es| - 1];
      if n in before.io && Puts(L, before, e, n).Some? then Puts(L, before, e, n) else LastPut(L, s, n, es[..|es| - 1])
  }

  lemma {:induction false} LastPutAfter(L: Layout, s: Sys, n: string, es: seq<Event>, more: seq<Event>)
    ensures var later := LastPut(L, Run(L, s, es), n, more);
            LastPut(L, s, n, es + more) == if later.Some? then later else LastPut(L, s, n, es)
  {
    hide Run, Puts;
    if more == [] {
      assert es + more == es;
    } else {
      var k := |more| - 1;
      assert (es + more)[..|es + more| - 1] == es + more[..k];
      LastPutAfter(L, s, n, es, more[..k]);
      RunAppend(L, s, es, more[..k]);
    }
  }

  ghost predicate NeverSet(es: seq<Event>, n: string) {
    forall i :: 0 <= i < |es| ==> !Sets(es[i], n)
  }

  lemma {:induction false} LiveIsLastPut(L: Layout, s: Sys, n: string, es: seq<Event>)
    requires Shaped(L, s) && n in L.writable && NeverSet(es, n)
    ensures var t := Run(L, s, es);
            n in s.live && n in t.live && t.live[n].value == Over(LastPut(L, s, n, es), s.live[n].value)
  {
    if es != [] {
      var init, last := es[..|es| - 1], es[|es| - 1];
      assert NeverSet(init, n) && !Sets(last, n);
      hide Apply, Shaped, Puts, NeverSet, Sets;
      LiveIsLastPut(L, s, n, init);
      ShapedRun(L, s, init);
      PutsStep(L, Run(L, s, init), last, n);
    }
  }

  lemma {:induction false} PrivatePutsNone(L: Layout, s: Sys, n: string, es: seq<Event>)
    requires !L.shared
    ensures LastPut(L, s, n, es) == None
  {
    hide Run;
    if es != [] { PrivatePutsNone(L, s, n, es[..|es| - 1]); }
  }

  // --- from arbitration to publication ------------------------------------------------------------

  predicate Reads(e: Event, n: string) {
    e.Publish? || (e.Gather? && e.name == n)
  }

  ghost predicate NeverRead(es: seq<Event>, n: string) {
    forall i :: 0 <= i < |es| ==> !Reads(es[i], n)
  }

  lemma GatheredStays(L: Layout, s: Sys, e: Event, n: string)
    requires !Reads(e, n) && n in s.gathered
    ensures n in Apply(L, s, e).gathered && Apply(L, s, e).gathered[n] == s.gathered[n]
  {
    hide Apply;
    if e.Gather? { GatherStep(L, s, e.name); } else { GatheredKept(L, s, e); }
  }

  lemma {:induction false} GatheredLasts(L: Layout, s: Sys, n: string, es: seq<Event>)
    requires n in s.gathered && NeverRead(es, n)
    ensures n in Run(L, s, es).gathered && Run(L, s, es).gathered[n] == s.gathered[n]
  {
    if es != [] {
      assert NeverRead(es[..|es| - 1], n) && !Reads(es[|es| - 1], n);
      hide Apply, NeverRead, Reads;
      GatheredLasts(L, s, n, es[..|es| - 1]);
      GatheredStays(L, Run(L, s, es[..|es| - 1]), es[|es| - 1], n);
    }
  }

  /** A setpoint is read for publication once, at any time before the publication. */
  function Gathered(L: Layout, s: Sys, n: string, mid: seq<Event>, rest: seq<Event>): Sys {
    Run(L, Apply(L, Run(L, s, mid), Gather(n)), rest)
  }

  function Passed(L: Layout, s: Sys, n: string, mid: seq<Event>, rest: seq<Event>): Sys {
    Apply(L, Gathered(L, s, n, mid, rest), Publish)
  }

  lemma GatheredIsLastPut(L: Layout, s: Sys, n: string, mid: seq<Event>, rest: seq<Event>)
    requires Shaped(L, s) && n in L.writable && NeverSet(mid, n) && NeverRead(rest, n)
    ensures var t := Gathered(L, s, n, mid, rest);
            n in s.live && n in t.gathered && t.gathered[n] == Over(LastPut(L, s, n, mid), s.live[n].value)
  {
    hide Run, Apply, Shaped, NeverSet, NeverRead, LastPut;
    LiveIsLastPut(L, s, n, mid);
    GatherStep(L, Run(L, s, mid), n);
    GatheredLasts(L, Apply(L, Run(L, s, mid), Gather(n)), n, rest);
  }

  /** What is published for a setpoint is the last value the worker put on it before it was read,
      and the commanded value only if there is none. */
  lemma PublishedIsLastPut(L: Layout, s: Sys, n: string, mid: seq<Event>, rest: seq<Event>)
    requires Shaped(L, s) && n in L.writable && NeverSet(mid, n) && NeverRead(rest, n)
    ensures var t := Passed(L, s, n, mid, rest);
            n in s.live && n in t.mirror.cache && t.mirror.cache[n] == Over(LastPut(L, s, n, mid), s.live[n].value)
  {
    hide Run, Apply, Shaped, NeverSet, NeverRead, LastPut, Gathered;
    GatheredIsLastPut(L, s, n, mid, rest);
    PublishStep(L, Gathered(L, s, n, mid, rest));
  }

  lemma SetTo(L: Layout, s: Sys, n: string, v: Ext)
    requires Shaped(L, s) && n in L.writable
    ensures var t := Apply(L, s, LiveSet(n, v));
            n in s.io && n in s.live && n in t.live && (s.live[n].writable ==> t.live[n].value == Clamped(s.live, n, v))
  {
    hide Apply, Agree, MirrorFits, PhaseFits, TagsOf;
    assert Commandable(s.io, n);
    SetStep(L, s, n, v);
  }

  // --- two inputs that fail, and the layout that has none -----------------------------------------

  /** A poll of one device that reads v everywhere. */
  function OnePoll(L: Layout, d: string, v: Ext): seq<Event>
    requires d in L.channels
  {
    [StartRead, Poll(d, map m | m in L.channels[d] :: Some(v))]
  }

  lemma PollReadsIt(L: Layout, s: Sys, n: string, d: string, b: Ext)
    requires L.shared && s.phase.Idle? && n in s.io && d in L.channels && n in L.channels[d]
    ensures LastPut(L, s, n, OnePoll(L, d, b)) == Some(b)
  {
    var values := map m | m in L.channels[d] :: Some(b);
    var es := OnePoll(L, d, b);
    assert es == [StartRead, Poll(d, values)];
    assert es[..1] == [StartRead] == [] + [StartRead] && Run(L, s, []) == s;
    RunStep(L, s, [], StartRead);
    StartReadStep(L, s);
    hide Apply, Run;
    var before := Run(L, s, es[..|es| - 1]);
    assert before == s.(phase := Reading(map[], {}));
    assert Pollable(L, before.phase, d, values) && values[n] == Some(b);
  }

  /** A poll that lands between the command of a setpoint and its publication: the register's old
      content is published in its place, and no device counts as read for it. */
  lemma PolledReplacesPin(L: Layout, s: Sys, n: string, d: string, v: Ext, b: Ext)
    requires Shaped(L, s) && L.shared && s.phase.Idle? && n in L.writable && d in L.channels && n in L.channels[d]
    ensures var t := Passed(L, Apply(L, s, LiveSet(n, v)), n, OnePoll(L, d, b), []);
            n in t.mirror.cache && t.mirror.cache[n] == b && t.past.stamps == s.past.stamps
  {
    var u := Apply(L, s, LiveSet(n, v));
    var p := Poll(d, map m | m in L.channels[d] :: Some(b));
    hide Apply, Run;
    SetTo(L, s, n, v);
    ShapedStep(L, s, LiveSet(n, v));
    UnrelatedKeeps(L, s, LiveSet(n, v));
    IoStep(L, s, LiveSet(n, v));
    PollReadsIt(L, u, n, d, b);
    PublishedIsLastPut(L, u, n, OnePoll(L, d, b), []);
    StampsOfPoll(L, s, LiveSet(n, v), StartRead, p, n);
  }

  predicate Stampless(e: Event) {
    !e.EndRead?
  }

  lemma StampsKept(L: Layout, s: Sys, e: Event)
    requires Stampless(e)
    ensures Apply(L, s, e).past.stamps == s.past.stamps
  {
    hide Foreground, CommandPass, FlushPass, ReadPass;
  }

  lemma StampsOfPoll(L: Layout, s: Sys, a: Event, b: Event, c: Event, n: string)
    requires Stampless(a) && Stampless(b) && Stampless(c)
    ensures Passed(L, Apply(L, s, a), n, [b, c], []).past.stamps == s.past.stamps
  {
    var u := Apply(L, s, a);
    hide Apply;
    assert Run(L, u, []) == u && [] + [b] == [b] && [b] + [c] == [b, c];
    RunStep(L, u, [], b);
    RunStep(L, u, [b], c);
    StampsKept(L, s, a);
    StampsKept(L, u, b);
    StampsKept(L, Apply(L, u, b), c);
    var q := Run(L, u, [b, c]);
    StampsKept(L, q, Gather(n));
    assert Run(L, Apply(L, q, Gather(n)), []) == Apply(L, q, Gather(n));
    StampsKept(L, Apply(L, q, Gather(n)), Publish);
  }

  /** A flush that took the old setpoint and loads it after the new one is commanded: the old one
      is published again, with no register polled at all. */
  lemma OldFlushReplacesPin(L: Layout, s: Sys, n: string, a: Ext, v: Ext)
    requires Shaped(L, s) && L.shared && s.phase.Idle? && n in L.writable
    requires n in s.mirror.dirty && s.mirror.cache[n] == a
    ensures var taken := Apply(L, s, TakeDue(1.0));
            var t := Passed(L, Apply(L, taken, LiveSet(n, v)), n, [LoadDue], []);
            n in s.io && n in t.mirror.cache && t.mirror.cache[n] == Clamped(s.io, n, a)
  {
    var pending := Due(s.mirror, 1.0, L.rewrite);
    assert n in pending && pending[n] == a;
    var taken := Apply(L, s, TakeDue(1.0));
    PhaseStep(L, s, TakeDue(1.0));
    IoStep(L, s, TakeDue(1.0));
    ShapedStep(L, s, TakeDue(1.0));
    hide Apply, Due, MirrorFits, PhaseFits, TagsOf;
    var u := Apply(L, taken, LiveSet(n, v));
    SetTo(L, taken, n, v);
    ShapedStep(L, taken, LiveSet(n, v));
    UnrelatedKeeps(L, taken, LiveSet(n, v));
    IoStep(L, taken, LiveSet(n, v));
    IoStays(L, taken, LiveSet(n, v));
    assert u.phase == Flushing(pending, false, {}) && n in u.io;
    LoadPuts(L, u, n);
    PublishedIsLastPut(L, u, n, [LoadDue], []);
  }

  lemma LoadPuts(L: Layout, s: Sys, n: string)
    requires L.shared && s.phase.Flushing? && !s.phase.loaded && n in s.phase.pending && n in s.io
    ensures LastPut(L, s, n, [LoadDue]) == Some(Clamped(s.io, n, s.phase.pending[n]))
  {
    assert [LoadDue][..0] == [] && Run(L, s, []) == s;
  }

  /** Only with a private store is a commanded setpoint the one published, whatever the worker
      does in between. */
  lemma PinPublishedIffPrivate(L: Layout, s: Sys, n: string, d: string, b: Ext)
    requires Shaped(L, s) && s.phase.Idle? && n in L.writable && d in L.channels && n in L.channels[d]
    requires n in s.live && b != s.live[n].value
    ensures (forall mid, rest :: NeverSet(mid, n) && NeverRead(rest, n) ==>
               var t := Passed(L, s, n, mid, rest);
               n in t.mirror.cache && t.mirror.cache[n] == s.live[n].value)
            <==> !L.shared
  {
    hide Shaped, Passed, LastPut, Initial;
    if L.shared {
      var poll := OnePoll(L, d, b);
      ShapedHas(L, s, n);
      PollReadsIt(L, s, n, d, b);
      assert NeverSet(poll, n) && NeverRead([], n);
      PublishedIsLastPut(L, s, n, poll, []);
    } else {
      forall mid, rest | NeverSet(mid, n) && NeverRead(rest, n)
        ensures n in Passed(L, s, n, mid, rest).mirror.cache && Passed(L, s, n, mid, rest).mirror.cache[n] == s.live[n].value
      {
        PublishedIsLastPut(L, s, n, mid, rest);
        PrivatePutsNone(L, s, n, mid);
      }
    }
  }

  lemma ShapedHas(L: Layout, s: Sys, n: string)
    requires Shaped(L, s) && n in L.writable
    ensures n in s.io && n in s.live
  {
    assert Commandable(s.io, n);
  }
}
