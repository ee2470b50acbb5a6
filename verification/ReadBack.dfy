/** Whether a register read back can be written out: never, on every interleaving that publishes
    no setpoint whose live value is a read-back. With a private store there is none. */
module ReadBack {
  import opened Num
  import opened Channels
  import opened CachedDriver
  import opened Interleaving
  import opened SetpointFlow
  import opened CommandFlow

  // --- the live values that are read-backs ---------------------------------------------------------

  /** The registers whose live value was polled since it was last commanded or loaded. */
  function ReadBacksAfter(L: Layout, s: Sys, e: Event, back: set<string>): set<string> {
    match e
    case LiveSet(n, _) => if Commandable(s.live, n) then back - {n} else back
    case LoadDue => if L.shared && s.phase.Flushing? && !s.phase.loaded then back - s.phase.pending.Keys else back
    case Poll(d, values) =>
      if L.shared && Pollable(L, s.phase, d, values) then back + (set n | n in values && values[n].Some?) else back
    case _ => back
  }

  function ReadBacks(L: Layout, s: Sys, back: set<string>, es: seq<Event>): set<string> {
    if es == [] then back
    else ReadBacksAfter(L, Run(L, s, es[..|es| - 1]), es[|es| - 1], ReadBacks(L, s, back, es[..|es| - 1]))
  }

  /** A read-back is read for publication. */
  predicate GathersOne(e: Event, back: set<string>) {
    e.Gather? && e.name in back
  }

  ghost predicate Clean(L: Layout, s: Sys, back: set<string>, es: seq<Event>) {
    forall i :: 0 <= i < |es| ==> !GathersOne(es[i], ReadBacks(L, s, back, es[..i]))
  }

  lemma CleanInit(L: Layout, s: Sys, back: set<string>, es: seq<Event>)
    requires es != [] && Clean(L, s, back, es)
    ensures var init := es[..|es| - 1];
            Clean(L, s, back, init) && !GathersOne(es[|es| - 1], ReadBacks(L, s, back, init))
  {
    var init := es[..|es| - 1];
    forall i | 0 <= i < |init| ensures !GathersOne(init[i], ReadBacks(L, s, back, init[..i])) {
      assert init[..i] == es[..i] && init[i] == es[i];
    }
  }

  lemma {:induction false} PrivateReadsNone(L: Layout, s: Sys, es: seq<Event>)
    requires !L.shared
    ensures ReadBacks(L, s, {}, es) == {}
  {
    hide Run, Pollable, Commandable;
    if es != [] { PrivateReadsNone(L, s, es[..|es| - 1]); }
  }

  lemma PrivateClean(L: Layout, s: Sys, es: seq<Event>)
    requires !L.shared
    ensures Clean(L, s, {}, es)
  {
    hide Run, ReadBacks;
    forall i | 0 <= i < |es| ensures !GathersOne(es[i], ReadBacks(L, s, {}, es[..i])) {
      PrivateReadsNone(L, s, es[..i]);
    }
  }

  // --- where a written value comes from ------------------------------------------------------------

  /** The value written, before the channel's clamp, was commanded by the foreground or sent. */
  ghost predicate Traces(past: History, io: Tags, w: Write) {
    && w.tag in io
    && ((exists v :: Write(w.tag, v) in past.commanded && w.value == Clamped(io, w.tag, v))
        || (exists i :: 0 <= i < |past.sent| && past.sent[i].tag == w.tag && w.value == Clamped(io, w.tag, past.sent[i].value)))
  }

  ghost predicate AllTrace(past: History, io: Tags) {
    forall i :: 0 <= i < |past.writes| ==> Traces(past, io, past.writes[i])
  }

  /** The channel's clamp makes v a value the foreground commanded. */
  ghost predicate Rooted(commanded: set<Write>, io: Tags, n: string, v: Ext) {
    n in io && exists u :: Write(n, u) in commanded && Clamped(io, n, v) == Clamped(io, n, u)
  }

  ghost predicate AllRooted(commanded: set<Write>, io: Tags, values: Values) {
    forall n :: n in values ==> Rooted(commanded, io, n, values[n])
  }

  ghost predicate LiveRooted(L: Layout, commanded: set<Write>, live: Tags, io: Tags, back: set<string>) {
    forall n :: n in L.writable && n !in back ==> n in live && Rooted(commanded, io, n, live[n].value)
  }

  ghost predicate LoadedTraces(p: Phase, past: History, io: Tags) {
    forall n :: Targets(p, n) ==> n in io && Traces(past, io, Write(n, io[n].value))
  }

  ghost predicate Traced(L: Layout, s: Sys, back: set<string>) {
    && Conserved(s.past.done, s.phase, s.queue, s.past.sent)
    && LiveRooted(L, s.past.commanded, s.live, s.io, back)
    && AllRooted(s.past.commanded, s.io, s.gathered) && AllRooted(s.past.commanded, s.io, s.mirror.cache)
    && (s.phase.Flushing? ==> AllRooted(s.past.commanded, s.io, s.phase.pending))
    && LoadedTraces(s.phase, s.past, s.io)
    && AllTrace(s.past, s.io)
  }

  // --- what only grows ---------------------------------------------------------------------------

  ghost predicate Grows(past: History, later: History) {
    past.commanded <= later.commanded && past.sent <= later.sent
  }

  lemma SentKept(L: Layout, s: Sys, e: Event)
    ensures !e.Send? ==> s.past.sent == Apply(L, s, e).past.sent
  {
    hide Foreground, CommandPass, FlushPass, ReadPass;
  }

  lemma CommandedKept(L: Layout, s: Sys, e: Event)
    ensures !e.LiveSet? ==> s.past.commanded == Apply(L, s, e).past.commanded
  {
    hide Foreground, CommandPass, FlushPass, ReadPass;
  }

  lemma PastGrows(L: Layout, s: Sys, e: Event)
    ensures Grows(s.past, Apply(L, s, e).past)
  {
    SentKept(L, s, e);
    CommandedKept(L, s, e);
    match e
    case Send(tag, v) =>
      SendStep(L, s, Command(tag, v));
      hide Apply;
    case LiveSet(n, v) =>
      hide CommandPass, FlushPass, ReadPass, WithLive, Commanded, Clamped;
    case _ =>
      hide Apply;
  }

  lemma StillTraces(past: History, later: History, io: Tags, io': Tags, w: Write)
    requires Traces(past, io, w) && SameChannels(io, io') && Grows(past, later)
    ensures Traces(later, io', w)
  {
    if exists v :: Write(w.tag, v) in past.commanded && w.value == Clamped(io, w.tag, v) {
      var v :| Write(w.tag, v) in past.commanded && w.value == Clamped(io, w.tag, v);
      assert w.value == Clamped(io', w.tag, v);
    } else {
      var i :| 0 <= i < |past.sent| && past.sent[i].tag == w.tag && w.value == Clamped(io, w.tag, past.sent[i].value);
      assert later.sent[i] == past.sent[i];
    }
  }

  lemma StillRooted(past: History, later: History, io: Tags, io': Tags, n: string, v: Ext)
    requires Rooted(past.commanded, io, n, v) && SameChannels(io, io') && Grows(past, later)
    ensures Rooted(later.commanded, io', n, v)
  {
    var u :| Write(n, u) in past.commanded && Clamped(io, n, v) == Clamped(io, n, u);
    assert Clamped(io', n, v) == Clamped(io', n, u);
  }

  lemma StillAllRooted(past: History, later: History, io: Tags, io': Tags, values: Values)
    requires AllRooted(past.commanded, io, values) && SameChannels(io, io') && Grows(past, later)
    ensures AllRooted(later.commanded, io', values)
  {
    forall n | n in values ensures Rooted(later.commanded, io', n, values[n]) {
      StillRooted(past, later, io, io', n, values[n]);
    }
    hide Rooted;
  }

  lemma StillAllTrace(past: History, later: History, io: Tags, io': Tags)
    requires AllTrace(past, io) && SameChannels(io, io') && Grows(past, later) && past.writes == later.writes
    ensures AllTrace(later, io')
  {
    forall i | 0 <= i < |past.writes| ensures Traces(later, io', past.writes[i]) {
      StillTraces(past, later, io, io', past.writes[i]);
    }
    hide Traces;
  }

  lemma ClampTwice(v: Ext, lo: Ext, hi: Ext)
    ensures ClampE(ClampE(v, lo, hi), lo, hi) == ClampE(v, lo, hi)
  {}

  lemma RootedClamped(commanded: set<Write>, io: Tags, n: string, v: Ext)
    requires n in io
    ensures Rooted(commanded, io, n, Clamped(io, n, v)) == Rooted(commanded, io, n, v)
  {
    ClampTwice(v, io[n].min, io[n].max);
  }

  lemma RootedTraces(past: History, io: Tags, n: string, v: Ext)
    requires Rooted(past.commanded, io, n, v)
    ensures Traces(past, io, Write(n, Clamped(io, n, v)))
  {
    var u :| Write(n, u) in past.commanded && Clamped(io, n, v) == Clamped(io, n, u);
  }

  lemma {:induction false} LastIndex(cmds: seq<Command>, tag: string) returns (i: nat)
    requires tag in TagsOf(cmds)
    ensures i < |cmds| && cmds[i].tag == tag && LastValue(cmds, tag) == Some(cmds[i].value)
    ensures forall j :: i < j < |cmds| ==> cmds[j].tag != tag
  {
    var last := |cmds| - 1;
    if cmds[last].tag == tag {
      i := last;
    } else {
      assert tag in TagsOf(cmds[..last]) by { assert cmds == cmds[..last] + [cmds[last]]; }
      i := LastIndex(cmds[..last], tag);
    }
  }

  /** What a command transaction has loaded was sent. */
  lemma LoadedWasSent(past: History, p: Phase, queue: seq<Command>, io: Tags, tag: string)
    requires p.Commanding? && Conserved(past.done, p, queue, past.sent) && tag in TagsOf(p.cmds) && tag in io
    ensures Traces(past, io, Write(tag, Clamped(io, tag, LastValue(p.cmds, tag).value)))
  {
    var i := LastIndex(p.cmds, tag);
    assert past.sent[|past.done| + i] == p.cmds[i];
  }

  // --- one step, part by part --------------------------------------------------------------------

  lemma SetRooted(L: Layout, commanded: set<Write>, live: Tags, io: Tags, io': Tags, back: set<string>, n: string, v: Ext)
    requires StoresFit(L, live, io) && SameChannels(io, io') && Commandable(live, n) && LiveRooted(L, commanded, live, io, back)
    ensures LiveRooted(L, commanded + {Write(n, Clamped(live, n, v))}, Commanded(live, n, v), io', back - {n})
  {
    var more := commanded + {Write(n, Clamped(live, n, v))};
    var after := Commanded(live, n, v);
    forall m | m in L.writable && m !in back - {n} ensures Rooted(more, io', m, after[m].value) {
      if m == n {
        assert Write(n, after[n].value) in more;
      } else {
        var u :| Write(m, u) in commanded && Clamped(io, m, live[m].value) == Clamped(io, m, u);
        assert Write(m, u) in more && Clamped(io', m, live[m].value) == Clamped(io', m, u);
      }
    }
  }

  /** The live value stayed, or is what the flush under way loaded. */
  predicate StaysOrLoads(s: Sys, t: Sys, back: set<string>, n: string)
    requires n in s.live && n in t.live && n in s.io
  {
    || (n !in back && t.live[n].value == s.live[n].value)
    || (s.phase.Flushing? && n in s.phase.pending && t.live[n].value == Clamped(s.io, n, s.phase.pending[n]))
  }

  lemma LiveLoadedDue(L: Layout, s: Sys, back: set<string>, n: string)
    requires (L.shared ==> Agree(s.live, s.io)) && n in s.live && Commandable(s.io, n)
    requires n !in ReadBacksAfter(L, s, LoadDue, back)
    ensures n in Apply(L, s, LoadDue).live && StaysOrLoads(s, Apply(L, s, LoadDue), back, n)
  {
    LoadDueStep(L, s);
    hide Apply;
  }

  lemma LivePolled(L: Layout, s: Sys, d: string, values: map<string, Option<Ext>>, back: set<string>, n: string)
    requires Shaped(L, s) && n in s.live && n in s.io && n !in ReadBacksAfter(L, s, Poll(d, values), back)
    ensures n in Apply(L, s, Poll(d, values)).live && StaysOrLoads(s, Apply(L, s, Poll(d, values)), back, n)
  {
    hide Apply, Pollable, StoresFit, MirrorFits, PhaseFits, TagsOf, Unwritable;
    PollStep(L, s, d, values);
    if Pollable(L, s.phase, d, values) && L.shared {
      assert Apply(L, s, Poll(d, values)).live[n] == PolledIn(s.io, values)[n] && s.live[n] == s.io[n];
    }
  }

  /** Where a live value that is no read-back comes from, when nothing is being commanded. */
  lemma LiveComesFrom(L: Layout, s: Sys, e: Event, back: set<string>, n: string)
    requires Shaped(L, s) && !e.LiveSet? && n in L.writable && n !in ReadBacksAfter(L, s, e, back)
    ensures var t := Apply(L, s, e);
            n in s.live && n in t.live && n in s.io && StaysOrLoads(s, t, back, n)
  {
    assert Commandable(s.io, n) && n in s.live;
    hide Apply, StoresFit, MirrorFits, PhaseFits, TagsOf;
    match e
    case CopyIn(m) =>
      CopyStep(L, s, m);
    case Observe(m, v) =>
      ObserveStep(L, s, m, v);
    case LoadCommands =>
      LiveLoaded(L, s, n);
    case LoadDue =>
      LiveLoadedDue(L, s, back, n);
    case Poll(d, values) =>
      LivePolled(L, s, d, values, back, n);
    case _ =>
      StoresKept(L, s, e);
  }

  lemma LiveStep(L: Layout, s: Sys, e: Event, back: set<string>)
    requires Shaped(L, s) && Traced(L, s, back)
    ensures var t := Apply(L, s, e);
            LiveRooted(L, t.past.commanded, t.live, t.io, ReadBacksAfter(L, s, e, back))
  {
    var t := Apply(L, s, e);
    IoStep(L, s, e);
    IoStays(L, s, e);
    PastGrows(L, s, e);
    if e.LiveSet? {
      LiveSetStep(L, s, e.name, e.value, back);
    } else {
      forall n | n in L.writable && n !in ReadBacksAfter(L, s, e, back)
        ensures n in t.live && Rooted(t.past.commanded, t.io, n, t.live[n].value)
      {
        LiveComesFrom(L, s, e, back, n);
        if n !in back && t.live[n].value == s.live[n].value {
          StillRooted(s.past, t.past, s.io, t.io, n, s.live[n].value);
        } else {
          RootedClamped(s.past.commanded, s.io, n, s.phase.pending[n]);
          StillRooted(s.past, t.past, s.io, t.io, n, Clamped(s.io, n, s.phase.pending[n]));
        }
      }
      hide Apply, Rooted, LoadedTraces, AllTrace, Conserved, Shaped, IoAfter, Agree, ReadBacksAfter, Clamped, Grows;
    }
  }

  lemma LiveSetStep(L: Layout, s: Sys, n: string, v: Ext, back: set<string>)
    requires Shaped(L, s) && LiveRooted(L, s.past.commanded, s.live, s.io, back)
    ensures var t := Apply(L, s, LiveSet(n, v));
            LiveRooted(L, t.past.commanded, t.live, t.io, ReadBacksAfter(L, s, LiveSet(n, v), back))
  {
    IoStep(L, s, LiveSet(n, v));
    IoStays(L, s, LiveSet(n, v));
    if Commandable(s.live, n) {
      SetRooted(L, s.past.commanded, s.live, s.io, Apply(L, s, LiveSet(n, v)).io, back, n, v);
    }
    hide LiveRooted, IoAfter, StoresFit, MirrorFits, PhaseFits, Commanded, Clamped, Commandable, SameChannels, Agree;
  }

  lemma GatheredStep(L: Layout, s: Sys, e: Event, back: set<string>)
    requires Shaped(L, s) && Traced(L, s, back) && !GathersOne(e, back)
    ensures AllRooted(Apply(L, s, e).past.commanded, Apply(L, s, e).io, Apply(L, s, e).gathered)
  {
    var t := Apply(L, s, e);
    IoStep(L, s, e);
    IoStays(L, s, e);
    PastGrows(L, s, e);
    StillAllRooted(s.past, t.past, s.io, t.io, s.gathered);
    match e
    case Gather(n) =>
      GatherStep(L, s, n);
      hide Apply, Rooted, LoadedTraces, AllTrace, Conserved, Shaped, IoAfter, Agree, Grows;
    case Publish =>
      PublishStep(L, s);
      hide Apply;
    case _ =>
      GatheredKept(L, s, e);
      hide Apply, AllRooted;
  }

  lemma PublishRooted(commanded: set<Write>, io: Tags, m: Mirror, values: Values)
    requires AllRooted(commanded, io, values) && AllRooted(commanded, io, m.cache)
    ensures AllRooted(commanded, io, Published(m, values).cache)
  {
    hide Rooted;
  }

  lemma CacheStep(L: Layout, s: Sys, e: Event, back: set<string>)
    requires Shaped(L, s) && Traced(L, s, back)
    ensures AllRooted(Apply(L, s, e).past.commanded, Apply(L, s, e).io, Apply(L, s, e).mirror.cache)
  {
    var t := Apply(L, s, e);
    IoStep(L, s, e);
    IoStays(L, s, e);
    PastGrows(L, s, e);
    if e.Publish? {
      PublishStep(L, s);
      PublishRooted(s.past.commanded, s.io, s.mirror, s.gathered);
    } else {
      CacheKept(L, s, e);
      StillAllRooted(s.past, t.past, s.io, t.io, s.mirror.cache);
    }
    hide Apply, AllRooted, LiveRooted, LoadedTraces, AllTrace, Conserved, Shaped, IoAfter, Agree, Grows, Published;
  }

  lemma PendingKept(L: Layout, s: Sys, e: Event)
    requires !e.TakeDue?
    ensures Apply(L, s, e).phase.Flushing? ==> s.phase.Flushing? && Apply(L, s, e).phase.pending == s.phase.pending
  {
    PhaseStep(L, s, e);
    hide Apply, AllGood, Goods, TagsOf;
  }

  lemma PendingStep(L: Layout, s: Sys, e: Event, back: set<string>)
    requires Shaped(L, s) && Traced(L, s, back)
    ensures var t := Apply(L, s, e);
            t.phase.Flushing? ==> AllRooted(t.past.commanded, t.io, t.phase.pending)
  {
    var t := Apply(L, s, e);
    IoStep(L, s, e);
    IoStays(L, s, e);
    PastGrows(L, s, e);
    if e.TakeDue? {
      TakeRooted(L, s, e.now);
    } else if t.phase.Flushing? {
      PendingKept(L, s, e);
      StillAllRooted(s.past, t.past, s.io, t.io, s.phase.pending);
      hide Apply;
    }
    hide AllRooted, LiveRooted, LoadedTraces, AllTrace, Conserved, Shaped, IoAfter, Agree, Grows;
  }

  lemma TakeRooted(L: Layout, s: Sys, now: real)
    requires AllRooted(s.past.commanded, s.io, s.mirror.cache)
    requires s.phase.Flushing? ==> AllRooted(s.past.commanded, s.io, s.phase.pending)
    ensures var t := Apply(L, s, TakeDue(now));
            t.phase.Flushing? ==> AllRooted(t.past.commanded, t.io, t.phase.pending)
  {
    hide Rooted, IsDue;
  }

  // what is loaded

  /** A register that is still to be written was so before, or has just been loaded. */
  lemma TargetComesFrom(L: Layout, s: Sys, e: Event, n: string)
    requires Targets(Apply(L, s, e).phase, n)
    ensures || Targets(s.phase, n)
            || (e.LoadCommands? && s.phase.Commanding? && !s.phase.prepared && n in TagsOf(s.phase.cmds))
            || (e.LoadDue? && s.phase.Flushing? && !s.phase.loaded && n in s.phase.pending)
  {
    PhaseStep(L, s, e);
    hide Apply, AllGood, Goods, TagsOf;
  }

  /** The registers still to be written keep their loaded values, or were commanded since. */
  lemma LoadedKept(L: Layout, s: Sys, e: Event, n: string)
    requires Shaped(L, s) && Targets(s.phase, n)
    ensures n in s.io && n in IoAfter(L, s, e)
    ensures || IoAfter(L, s, e)[n].value == s.io[n].value
            || (e.LiveSet? && e.name == n && L.shared && IoAfter(L, s, e)[n].value == Clamped(s.io, n, e.value))
  {
    assert n in L.writable || n in L.commands;
    hide Loaded, LoadedAll, PolledIn, TagsOf;
  }

  lemma LoadedStep(L: Layout, s: Sys, e: Event, back: set<string>)
    requires Shaped(L, s) && Traced(L, s, back)
    ensures var t := Apply(L, s, e);
            LoadedTraces(t.phase, t.past, t.io)
  {
    var t := Apply(L, s, e);
    IoStep(L, s, e);
    IoStays(L, s, e);
    PastGrows(L, s, e);
    forall n | Targets(t.phase, n) ensures n in t.io && Traces(t.past, t.io, Write(n, t.io[n].value)) {
      TargetComesFrom(L, s, e, n);
      if Targets(s.phase, n) {
        LoadedKept(L, s, e, n);
        if t.io[n].value == s.io[n].value {
          StillTraces(s.past, t.past, s.io, t.io, Write(n, s.io[n].value));
        } else {
          SetTraces(L, s, n, e.value);
        }
      } else {
        JustLoaded(L, s, e, n);
        StillTraces(s.past, t.past, s.io, t.io, Write(n, t.io[n].value));
      }
    }
    hide Apply, Traces, Targets, LiveRooted, AllRooted, AllTrace, Conserved, Shaped, IoAfter, Agree, Grows, SameChannels;
  }

  lemma SetTraces(L: Layout, s: Sys, n: string, v: Ext)
    requires Shaped(L, s) && L.shared && Targets(s.phase, n)
    ensures var t := Apply(L, s, LiveSet(n, v));
            n in t.io && (t.io[n].value == Clamped(s.io, n, v) ==> Traces(t.past, t.io, Write(n, t.io[n].value)))
  {
    LoadedKept(L, s, LiveSet(n, v), n);
    IoStep(L, s, LiveSet(n, v));
    IoStays(L, s, LiveSet(n, v));
    ClampTwice(v, s.io[n].min, s.io[n].max);
    assert n in L.writable || n in L.commands;
    assert Commandable(s.live, n) && Clamped(s.live, n, v) == Clamped(s.io, n, v);
    assert Write(n, Clamped(s.io, n, v)) in Apply(L, s, LiveSet(n, v)).past.commanded;
    hide Apply, IoAfter, MirrorFits, PhaseFits, TagsOf;
  }

  lemma JustLoaded(L: Layout, s: Sys, e: Event, n: string)
    requires Shaped(L, s) && Conserved(s.past.done, s.phase, s.queue, s.past.sent)
    requires s.phase.Flushing? ==> AllRooted(s.past.commanded, s.io, s.phase.pending)
    requires || (e.LoadCommands? && s.phase.Commanding? && !s.phase.prepared && n in TagsOf(s.phase.cmds))
             || (e.LoadDue? && s.phase.Flushing? && !s.phase.loaded && n in s.phase.pending)
    ensures n in s.io && n in IoAfter(L, s, e) && Traces(s.past, s.io, Write(n, IoAfter(L, s, e)[n].value))
  {
    IoStays(L, s, e);
    assert n in L.writable || n in L.commands;
    assert Commandable(s.io, n);
    if e.LoadDue? {
      RootedTraces(s.past, s.io, n, s.phase.pending[n]);
    } else {
      LoadedHoldsLast(s.io, s.phase.cmds, n);
      LoadedWasSent(s.past, s.phase, s.queue, s.io, n);
    }
    hide Loaded, Traces, Rooted, TagsOf, LastValue, MirrorFits, Conserved, Agree;
  }

  lemma WritesStep(L: Layout, s: Sys, e: Event, back: set<string>)
    requires Shaped(L, s) && Traced(L, s, back)
    ensures AllTrace(Apply(L, s, e).past, Apply(L, s, e).io)
  {
    var t := Apply(L, s, e);
    IoStep(L, s, e);
    IoStays(L, s, e);
    PastGrows(L, s, e);
    WritesGrow(L, s, e);
    StillAllTrace(s.past, t.past.(writes := s.past.writes), s.io, t.io);
    if e.Land? && Targets(s.phase, e.tag) && e.tag in s.io {
      StillTraces(s.past, t.past, s.io, t.io, Write(e.tag, s.io[e.tag].value));
      AllTraceMore(t.past, t.past.(writes := s.past.writes), t.io, Write(e.tag, s.io[e.tag].value));
    } else {
      assert t.past == t.past.(writes := s.past.writes);
    }
    hide Apply, AllTrace, Traces, Targets, LiveRooted, AllRooted, Conserved, Shaped, IoAfter, Agree, SameChannels;
  }

  lemma AllTraceMore(past: History, before: History, io: Tags, w: Write)
    requires AllTrace(before, io) && before == past.(writes := before.writes)
    requires past.writes == before.writes + [w] && Traces(past, io, w)
    ensures AllTrace(past, io)
  {
    forall i | 0 <= i < |past.writes| ensures Traces(past, io, past.writes[i]) {
      if i < |before.writes| { assert Traces(before, io, before.writes[i]); }
    }
  }

  lemma TracedStep(L: Layout, s: Sys, e: Event, back: set<string>)
    requires Shaped(L, s) && Traced(L, s, back) && !GathersOne(e, back)
    ensures Traced(L, Apply(L, s, e), ReadBacksAfter(L, s, e, back))
  {
    AccountStep(L, s, e);
    LiveStep(L, s, e, back);
    GatheredStep(L, s, e, back);
    CacheStep(L, s, e, back);
    PendingStep(L, s, e, back);
    LoadedStep(L, s, e, back);
    WritesStep(L, s, e, back);
    hide Apply, LiveRooted, AllRooted, LoadedTraces, AllTrace, Conserved, Shaped, ReadBacksAfter, GathersOne;
  }

  lemma {:induction false} StillTraced(L: Layout, s: Sys, back: set<string>, es: seq<Event>)
    requires Shaped(L, s) && Traced(L, s, back) && Clean(L, s, back, es)
    ensures Traced(L, Run(L, s, es), ReadBacks(L, s, back, es))
  {
    if es != [] {
      var init, last := es[..|es| - 1], es[|es| - 1];
      CleanInit(L, s, back, es);
      hide Apply, Shaped, Traced, Clean, GathersOne, ReadBacksAfter;
      StillTraced(L, s, back, init);
      ShapedRun(L, s, init);
      TracedStep(L, Run(L, s, init), last, ReadBacks(L, s, back, init));
    }
  }

  lemma TracedAtFirst(L: Layout, s: Sys)
    requires Initial(L, s)
    ensures Traced(L, s, {})
  {
    forall n | n in L.writable ensures n in s.live && Rooted(s.past.commanded, s.io, n, s.live[n].value) {
      assert Commandable(s.io, n) && Write(n, s.live[n].value) in s.past.commanded;
    }
  }

  /** On every interleaving that publishes no read-back, each value written to a device register
      was commanded by the foreground, or sent as a command. With a private store there are no
      read-backs to publish. */
  lemma ReadBackNeverWritten(L: Layout, s: Sys, es: seq<Event>)
    requires Initial(L, s) && Clean(L, s, {}, es)
    ensures AllTrace(Run(L, s, es).past, Run(L, s, es).io)
  {
    TracedAtFirst(L, s);
    StillTraced(L, s, {}, es);
    hide Initial, Clean, Run, AllTrace;
  }
}
