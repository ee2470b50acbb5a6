/** What the foreground spoils when the worker's store and the live one hold the same channel
    objects, as the assembled system wires them (src/pyems/ems.py, src/pyems/drivers/cached.py):
    each condition of the flow theorems is needed, at every state, and a private store meets them
    all. */
module SharedStore {
  import opened Num
  import opened Channels
  import opened CachedDriver
  import opened Interleaving
  import opened SetpointFlow
  import opened CommandFlow
  import opened ReadBack
  import opened ReadFlow

  // --- writing what is loaded -------------------------------------------------------------------------

  /** One transaction, further on: the same registers are loaded. */
  predicate SameTransaction(p: Phase, q: Phase) {
    match p
    case Commanding(cmds, prepared, _) => q.Commanding? && q.cmds == cmds && q.prepared == prepared
    case Flushing(pending, loaded, _) => q.Flushing? && q.pending == pending && q.loaded == loaded
    case _ => p == q
  }

  function Todo(p: Phase): (todo: set<string>)
    ensures forall n :: n in todo <==> Targets(p, n)
  {
    match p
    case Commanding(cmds, prepared, written) => if prepared then TagsOf(cmds) - written else {}
    case Flushing(pending, loaded, landed) => if loaded then pending.Keys - landed else {}
    case _ => {}
  }

  /** Only registers of the transaction under way have been written, with what was loaded. */
  ghost predicate Onward(s: Sys, t: Sys) {
    && SameTransaction(s.phase, t.phase) && (forall n :: Targets(t.phase, n) ==> Targets(s.phase, n))
    && t.live == s.live && t.io == s.io && t.mirror == s.mirror && t.queue == s.queue
    && t.past == s.past.(writes := t.past.writes)
    && (forall n :: !Targets(s.phase, n) ==> (n in t.device <==> n in s.device) && (n in s.device ==> t.device[n] == s.device[n]))
    && forall n :: Targets(s.phase, n) && !Targets(t.phase, n) ==> n in s.io && n in t.device && t.device[n] == s.io[n].value
  }

  lemma LandOnward(L: Layout, s: Sys, n: string)
    requires Shaped(L, s) && Targets(s.phase, n)
    ensures var t := Apply(L, s, Land(n));
            && Onward(s, t) && !Targets(t.phase, n)
            && Todo(t.phase) == Todo(s.phase) - {n}
  {
    assert n in L.writable || n in L.commands;
    LandStep(L, s, n);
    assert SameTransaction(s.phase, Landed(s.phase, n));
    hide Apply, TagsOf, MirrorFits, Agree;
  }

  lemma OnwardAgain(s: Sys, t: Sys, u: Sys)
    requires Onward(s, t) && Onward(t, u)
    ensures Onward(s, u)
  {
    hide Targets;
  }

  /** What is loaded can be written to the end. */
  lemma {:induction false} LandRest(L: Layout, s: Sys, before: seq<Event>) returns (es: seq<Event>, t: Sys)
    requires Shaped(L, Run(L, s, before)) && Undisturbed(L, s, before)
    ensures t == Run(L, s, es) && Undisturbed(L, s, es) && Onward(Run(L, s, before), t) && forall n :: !Targets(t.phase, n)
    decreases Todo(Run(L, s, before).phase)
  {
    var u := Run(L, s, before);
    if Todo(u.phase) == {} {
      es, t := before, u;
      assert Onward(u, u);
    } else {
      var n :| n in Todo(u.phase);
      LandOnward(L, u, n);
      ShapedStep(L, u, Land(n));
      hide Apply, Run, Shaped, Onward, Targets, Undisturbed, Todo;
      es, t := Then(L, s, before, Land(n));
      var v := t;
      es, t := LandRest(L, s, es);
      OnwardAgain(u, v, t);
    }
  }

  lemma SharedSetKeeps(L: Layout, s: Sys, n: string, v: Ext)
    ensures var t := Apply(L, s, LiveSet(n, v));
            && t.mirror == s.mirror && t.device == s.device && t.phase == s.phase && t.queue == s.queue
            && t.gathered == s.gathered && t.past == s.past.(commanded := t.past.commanded)
  {
    hide WithLive, Commanded, Clamped;
  }

  lemma SharedSet(L: Layout, s: Sys, n: string, v: Ext)
    requires Shaped(L, s) && L.shared && (n in L.writable || n in L.commands)
    ensures var t := Apply(L, s, LiveSet(n, v));
            && n in s.io && n in t.io && n in t.live && t.io == Commanded(s.io, n, v) && t.live[n] == t.io[n]
            && t.io[n].value == Clamped(s.io, n, v) && SameChannels(s.io, t.io)
            && t.mirror == s.mirror && t.device == s.device && t.phase == s.phase && t.queue == s.queue
            && t.past == s.past.(commanded := t.past.commanded)
  {
    IoStep(L, s, LiveSet(n, v));
    IoStays(L, s, LiveSet(n, v));
    SharedSetKeeps(L, s, n, v);
    assert Commandable(s.io, n);
    hide Apply, MirrorFits, PhaseFits, TagsOf, Overlay;
  }

  /** Reading one live setpoint and publishing what is read. */
  lemma GatherAndPublish(L: Layout, s: Sys, n: string)
    requires n in L.writable && n in s.live
    ensures Apply(L, Apply(L, s, Gather(n)), Publish) ==
            s.(mirror := Published(s.mirror, s.gathered[n := s.live[n].value]), gathered := map[])
  {
    GatherStep(L, s, n);
    PublishStep(L, Apply(L, s, Gather(n)));
    hide Apply;
  }

  // --- a setpoint, lost -----------------------------------------------------------------------------

  /** The wrong value has landed; the cache comes back to the right one before the flush ends. */
  lemma BackInTime(L: Layout, s: Sys, n: string, at: real)
    requires Shaped(L, s) && s.phase.Flushing? && s.phase.loaded && n in s.phase.pending && forall m :: !Targets(s.phase, m)
    requires n in s.live && s.live[n].value == s.phase.pending[n] && n in s.io && n in s.device
    requires s.device[n] != Clamped(s.io, n, s.phase.pending[n])
    ensures !CleanOnDevice(Apply(L, Apply(L, Apply(L, s, Gather(n)), Publish), EndFlush(true, at)))
  {
    assert n in L.writable;
    GatherAndPublish(L, s, n);
    var p := Apply(L, Apply(L, s, Gather(n)), Publish);
    var pending := s.phase.pending;
    assert FlushOver(p.phase, true) by {
      forall m | m in pending ensures m in s.phase.landed { assert !Targets(s.phase, m); }
    }
    EndFlushStep(L, p, true, at);
    BackAndClean(s.mirror, s.gathered[n := pending[n]], pending, n, at);
    hide Apply, Published, Settled, Targets, StoresFit, MirrorFits, Agree;
  }

  lemma BackAndClean(m: Mirror, values: Values, pending: Values, n: string, at: real)
    requires n in values && n in pending && values[n] == pending[n]
    ensures var after := Settled(Published(m, values), pending, at);
            n in after.cache && n !in after.dirty && after.cache[n] == pending[n]
  {}

  lemma DisturbanceLoses(L: Layout, s: Sys, n: string, v: Ext) returns (es: seq<Event>)
    requires Shaped(L, s) && NothingLost(s) && L.shared && s.phase.Flushing? && Targets(s.phase, n)
    requires Clamped(s.io, n, s.phase.pending[n]) == s.phase.pending[n] != Clamped(s.io, n, v)
    ensures var t := Apply(L, s, LiveSet(n, v));
            Undisturbed(L, t, es) && !CleanOnDevice(Run(L, t, es))
  {
    var a := s.phase.pending[n];
    var t := Apply(L, s, LiveSet(n, v));
    SharedSet(L, s, n, v);
    ShapedStep(L, s, LiveSet(n, v));
    assert Run(L, t, []) == t;
    var u;
    es, u := LandRest(L, t, []);
    ShapedRun(L, t, es);
    assert u.device[n] == Clamped(s.io, n, v);
    SharedSet(L, u, n, a);
    ShapedStep(L, u, LiveSet(n, a));
    es, u := Then(L, t, es, LiveSet(n, a));
    BackInTime(L, u, n, 1.0);
    hide Run, Apply, NothingLost, CleanOnDevice, Shaped;
    es, u := Then(L, t, es, Gather(n));
    es, u := Then(L, t, es, Publish);
    es, u := Then(L, t, es, EndFlush(true, 1.0));
  }

  /** While a flush has a register loaded and not yet written, the foreground may set it without
      some undisturbed run leaving a clean cached name off the device, exactly to the value being
      flushed. */
  lemma SettingLoadedLosesIff(L: Layout, s: Sys, n: string, v: Ext)
    requires Shaped(L, s) && NothingLost(s) && L.shared && s.phase.Flushing? && Targets(s.phase, n)
    requires n in s.io && Clamped(s.io, n, s.phase.pending[n]) == s.phase.pending[n]
    ensures var t := Apply(L, s, LiveSet(n, v));
            (forall es :: Undisturbed(L, t, es) ==> CleanOnDevice(Run(L, t, es))) <==> Clamped(s.io, n, v) == s.phase.pending[n]
  {
    var t := Apply(L, s, LiveSet(n, v));
    if Clamped(s.io, n, v) == s.phase.pending[n] {
      ShapedStep(L, s, LiveSet(n, v));
      NothingLostStep(L, s, LiveSet(n, v));
      forall es | Undisturbed(L, t, es) ensures CleanOnDevice(Run(L, t, es)) {
        StillHolds(L, t, es);
      }
    } else {
      var es := DisturbanceLoses(L, s, n, v);
    }
    hide Apply, Undisturbed, Shaped, Run, Delivered, FlushHolds;
  }

  lemma FirstDue(n: string, a: Ext, rewrite: real)
    ensures Published(Mirror(map[], {}, map[], false), map[n := a]) == Mirror(map[n := a], {n}, map[], true)
    ensures Due(Mirror(map[n := a], {n}, map[], true), 1.0, rewrite) == map[n := a]
  {}

  lemma TakenAndLoaded(L: Layout, s: Sys, n: string, a: Ext)
    requires s.mirror == Mirror(map[], {}, map[], false) && s.phase == Idle && s.gathered == map[]
    requires n in L.writable && n in s.live && s.live[n].value == a
    ensures var t := Apply(L, Apply(L, Apply(L, Apply(L, s, Gather(n)), Publish), TakeDue(1.0)), LoadDue);
            t.phase == Flushing(map[n := a], true, {}) && SameChannels(s.io, t.io)
  {
    GatherAndPublish(L, s, n);
    FirstDue(n, a, L.rewrite);
    var p := Apply(L, Apply(L, s, Gather(n)), Publish);
    PhaseStep(L, p, TakeDue(1.0));
    StoresKept(L, p, TakeDue(1.0));
    var q := Apply(L, p, TakeDue(1.0));
    PhaseStep(L, q, LoadDue);
    LoadDueStep(L, q);
    hide Apply, Published, Due, LoadedAll, Overlay, SameChannels;
  }

  /** A first publication is what the flush takes and loads. */
  lemma FirstFlush(L: Layout, s: Sys, n: string, a: Ext) returns (es: seq<Event>, t: Sys)
    requires Initial(L, s) && L.shared && n in L.writable && n in s.io && Clamped(s.io, n, a) == a
    ensures t == Run(L, s, es) && Undisturbed(L, s, es)
    ensures t.phase == Flushing(map[n := a], true, {}) && SameChannels(s.io, t.io)
  {
    SharedSet(L, s, n, a);
    SharedSetKeeps(L, s, n, a);
    assert Run(L, s, []) == s && s.mirror == Mirror(map[], {}, map[], false) && s.phase == Idle && s.gathered == map[];
    assert !Targets(Idle, n);
    hide Run, Apply, Initial, Undisturbed, Shaped, Targets;
    es, t := Then(L, s, [], LiveSet(n, a));
    TakenAndLoaded(L, t, n, a);
    SameTwice(s.io, t.io, Apply(L, Apply(L, Apply(L, Apply(L, t, Gather(n)), Publish), TakeDue(1.0)), LoadDue).io);
    es, t := Then(L, s, es, Gather(n));
    es, t := Then(L, s, es, Publish);
    es, t := Then(L, s, es, TakeDue(1.0));
    es, t := Then(L, s, es, LoadDue);
  }

  /** While the worker flushes a, a controller writes b and arbitration restores a: what lands
      is b, and the flush is taken for a delivery of a. */
  lemma SharedStoreLosesSetpoint(L: Layout, s: Sys, n: string, a: Ext, b: Ext) returns (es: seq<Event>)
    requires Initial(L, s) && L.shared && n in L.writable && n in s.io && a != b
    requires Clamped(s.io, n, a) == a && Clamped(s.io, n, b) == b
    ensures !CleanOnDevice(Run(L, s, es))
  {
    var before, t := FirstFlush(L, s, n, a);
    NoLostSetpoint(L, s, before);
    SameClamp(s.io, t.io, n, a);
    SameClamp(s.io, t.io, n, b);
    assert Targets(t.phase, n);
    hide Apply, NothingLost, CleanOnDevice, Run, Shaped, Initial, Undisturbed, Clamped, SameChannels, Targets;
    var more := DisturbanceLoses(L, t, n, b);
    RunStep(L, s, before, LiveSet(n, b));
    RunAppend(L, s, before + [LiveSet(n, b)], more);
    es := before + [LiveSet(n, b)] + more;
  }

  /** The store must be private for no interleaving at all to leave a clean cached name off the
      device. */
  lemma NothingLostIffPrivate(L: Layout, s: Sys, n: string, a: Ext, b: Ext)
    requires Initial(L, s) && n in L.writable && n in s.io && a != b
    requires Clamped(s.io, n, a) == a && Clamped(s.io, n, b) == b
    ensures (forall es :: CleanOnDevice(Run(L, s, es))) <==> !L.shared
  {
    hide Delivered, FlushHolds, Run, Shaped, Initial, Undisturbed;
    if L.shared {
      var es := SharedStoreLosesSetpoint(L, s, n, a, b);
    } else {
      forall es ensures CleanOnDevice(Run(L, s, es)) {
        PrivateUndisturbed(L, s, es);
        NoLostSetpoint(L, s, es);
      }
    }
  }

  // --- a command, replaced --------------------------------------------------------------------------

  lemma SpoiltCommand(L: Layout, s: Sys, tag: string)
    requires s.phase.Commanding? && s.phase.prepared && tag in TagsOf(s.phase.cmds) && tag !in TagsOf(s.queue)
    requires (forall m :: !Targets(s.phase, m)) && Conserved(s.past.done, s.phase, s.queue, s.past.sent)
    requires tag in s.io && tag in s.device && s.device[tag] != Clamped(s.io, tag, LastValue(s.phase.cmds, tag).value)
    ensures !Stands(Apply(L, s, EndCommands(true, 1.0)), tag)
  {
    var t := Apply(L, s, EndCommands(true, 1.0));
    var cmds := s.phase.cmds;
    assert CommandsOver(s.phase, true) by {
      forall m | m in TagsOf(cmds) ensures m in s.phase.written { assert !Targets(s.phase, m); }
    }
    assert s.past.sent == s.past.done + (cmds + s.queue);
    LastValueAppend(s.past.done, cmds + s.queue, tag);
    LastValueAppend(cmds, s.queue, tag);
    TagsAppend(cmds, s.queue);
    TagsAppend(s.past.done, cmds + s.queue);
    assert [] + s.queue == s.queue;
    hide LastValue, TagsOf, Clamped;
  }

  lemma DisturbanceReplaces(L: Layout, s: Sys, tag: string, v: Ext) returns (es: seq<Event>)
    requires Shaped(L, s) && Held(L, s) && L.shared && s.phase.Commanding? && Targets(s.phase, tag)
    requires tag !in TagsOf(s.queue) && tag in s.io && Clamped(s.io, tag, v) != s.io[tag].value
    ensures var t := Apply(L, s, LiveSet(tag, v));
            Undisturbed(L, t, es) && !Stands(Run(L, t, es), tag)
  {
    var t := Apply(L, s, LiveSet(tag, v));
    SharedSet(L, s, tag, v);
    ShapedStep(L, s, LiveSet(tag, v));
    assert Run(L, t, []) == t;
    var u;
    es, u := LandRest(L, t, []);
    assert u.device[tag] == Clamped(s.io, tag, v);
    assert u.past.done == s.past.done && u.past.sent == s.past.sent && u.phase.cmds == s.phase.cmds;
    assert Conserved(u.past.done, u.phase, u.queue, u.past.sent);
    SpoiltCommand(L, u, tag);
    hide Run, Apply, Stands, Shaped;
    es, u := Then(L, t, es, EndCommands(true, 1.0));
  }

  /** While a command transaction has a register loaded and not yet written, and no newer command
      for it is queued, the foreground may set it without replacing the command, now or on any
      undisturbed run, exactly to the value being written. */
  lemma SettingLoadedReplacesIff(L: Layout, s: Sys, tag: string, v: Ext)
    requires Shaped(L, s) && Held(L, s) && L.shared && s.phase.Commanding? && Targets(s.phase, tag)
    requires tag in s.io && tag !in TagsOf(s.queue)
    ensures var t := Apply(L, s, LiveSet(tag, v));
            (forall es :: Undisturbed(L, t, es) ==> Stands(Run(L, t, es), tag)) <==> Clamped(s.io, tag, v) == s.io[tag].value
  {
    var t := Apply(L, s, LiveSet(tag, v));
    if Clamped(s.io, tag, v) == s.io[tag].value {
      ShapedStep(L, s, LiveSet(tag, v));
      HeldStep(L, s, LiveSet(tag, v));
      forall es | Undisturbed(L, t, es) ensures Stands(Run(L, t, es), tag) {
        StillHeld(L, t, es);
        HeldStands(L, Run(L, t, es), tag);
      }
    } else {
      var es := DisturbanceReplaces(L, s, tag, v);
    }
    hide Apply, Undisturbed, Shaped, Run, Held, Stands;
  }

  lemma SentAndLoaded(L: Layout, s: Sys, tag: string, a: Ext)
    requires s.phase == Idle && s.queue == [] && tag in L.commands && Commandable(s.io, tag)
    ensures var t := Apply(L, Apply(L, Apply(L, s, Send(tag, a)), TakeCommands), LoadCommands);
            && t.phase == Commanding([Command(tag, a)], true, {}) && t.queue == []
            && tag in t.io && SameChannels(s.io, t.io) && t.io[tag].value == Clamped(s.io, tag, a)
  {
    var c := Command(tag, a);
    assert [] + [c] == [c];
    OneTag(c);
    LoadedHoldsLast(s.io, [c], tag);
    hide Loaded, TagsOf, LastValue, Overlay, SameChannels;
  }

  /** The one command sent, taken and loaded. */
  lemma FirstCommand(L: Layout, s: Sys, tag: string, a: Ext) returns (es: seq<Event>, t: Sys)
    requires Initial(L, s) && tag in L.commands
    ensures t == Run(L, s, es) && Undisturbed(L, s, es)
    ensures t.phase == Commanding([Command(tag, a)], true, {}) && t.queue == []
    ensures tag in s.io && tag in t.io && SameChannels(s.io, t.io) && t.io[tag].value == Clamped(s.io, tag, a)
  {
    assert Run(L, s, []) == s && s.phase == Idle && s.queue == [] && Commandable(s.io, tag);
    SentAndLoaded(L, s, tag, a);
    hide Run, Apply, Initial, Undisturbed;
    es, t := Then(L, s, [], Send(tag, a));
    es, t := Then(L, s, es, TakeCommands);
    es, t := Then(L, s, es, LoadCommands);
  }

  /** The foreground sets a command register between its loading and its writing: the command is
      reported delivered, and the register holds the foreground's value. */
  lemma SharedStoreReplacesCommand(L: Layout, s: Sys, tag: string, a: Ext, b: Ext) returns (es: seq<Event>)
    requires Initial(L, s) && L.shared && tag in L.commands && tag in s.io && Clamped(s.io, tag, a) != Clamped(s.io, tag, b)
    ensures !Stands(Run(L, s, es), tag)
  {
    HeldAtFirst(L, s);
    var before, t := FirstCommand(L, s, tag, a);
    StillHeld(L, s, before);
    ShapedRun(L, s, before);
    SameClamp(s.io, t.io, tag, b);
    assert [Command(tag, a)][0].tag in TagsOf([Command(tag, a)]) && Targets(t.phase, tag) && TagsOf([]) == {};
    hide Apply, Stands, Run, Shaped, Initial, Undisturbed, Held, Clamped, SameChannels, Targets, TagsOf;
    var more := DisturbanceReplaces(L, t, tag, b);
    RunStep(L, s, before, LiveSet(tag, b));
    RunAppend(L, s, before + [LiveSet(tag, b)], more);
    es := before + [LiveSet(tag, b)] + more;
  }

  /** The store must be private for the last command to stand on every interleaving. */
  lemma CommandsStandIffPrivate(L: Layout, s: Sys, tag: string, a: Ext, b: Ext)
    requires Initial(L, s) && tag in L.commands && tag in s.io && Clamped(s.io, tag, a) != Clamped(s.io, tag, b)
    ensures (forall es :: Stands(Run(L, s, es), tag)) <==> !L.shared
  {
    hide Stands, Run, Shaped, Initial, Undisturbed;
    if L.shared {
      var es := SharedStoreReplacesCommand(L, s, tag, a, b);
    } else {
      forall es ensures Stands(Run(L, s, es), tag) {
        PrivateUndisturbed(L, s, es);
        LastCommandStands(L, s, es, tag);
      }
    }
  }

  // --- a register read back, written out ------------------------------------------------------------

  ghost predicate OnlyCommandsSent(L: Layout, sent: seq<Command>) {
    forall i :: 0 <= i < |sent| ==> sent[i].tag in L.commands
  }

  lemma TakenDirty(L: Layout, s: Sys, n: string)
    requires Shaped(L, s) && s.phase.Idle? && n in s.mirror.dirty
    ensures var t := Apply(L, s, TakeDue(1.0));
            && t == s.(phase := Flushing(Due(s.mirror, 1.0, L.rewrite), false, {}))
            && n in s.mirror.cache && n in t.phase.pending && t.phase.pending[n] == s.mirror.cache[n]
  {
    var pending := Due(s.mirror, 1.0, L.rewrite);
    assert n in pending && pending[n] == s.mirror.cache[n];
    hide StoresFit, PhaseFits, TagsOf, Agree, Unwritable;
  }

  lemma LoadedDirty(L: Layout, s: Sys, n: string)
    requires s.phase.Flushing? && !s.phase.loaded && s.phase.landed == {} && n in s.phase.pending
    requires n in s.io && s.io[n].writable
    ensures var t := Apply(L, s, LoadDue);
            && Targets(t.phase, n) && t.past == s.past && SameChannels(s.io, t.io)
            && t.io[n].value == Clamped(s.io, n, s.phase.pending[n])
  {
    LoadDueStep(L, s);
    PhaseStep(L, s, LoadDue);
    PastKept(L, s, LoadDue);
    hide Apply, SameChannels;
  }

  lemma TakenAndLoadedDirty(L: Layout, s: Sys, n: string)
    requires Shaped(L, s) && s.phase.Idle? && n in s.mirror.dirty && n in s.io && s.io[n].writable
    ensures var t := Apply(L, Apply(L, s, TakeDue(1.0)), LoadDue);
            && Targets(t.phase, n) && t.past == s.past && SameChannels(s.io, t.io)
            && n in s.mirror.cache && t.io[n].value == Clamped(s.io, n, s.mirror.cache[n])
  {
    TakenDirty(L, s, n);
    LoadedDirty(L, Apply(L, s, TakeDue(1.0)), n);
    hide Apply, Due, Clamped, Shaped, SameChannels;
  }

  /** What is published is what the next flush writes. */
  lemma FlushWrites(L: Layout, s: Sys, n: string)
    requires Shaped(L, s) && s.phase.Idle? && n in L.writable && n in s.mirror.dirty
    ensures var t := Apply(L, Apply(L, Apply(L, s, TakeDue(1.0)), LoadDue), Land(n));
            && SameChannels(s.io, t.io) && n in s.io && n in s.mirror.cache
            && t.past == s.past.(writes := s.past.writes + [Write(n, Clamped(s.io, n, s.mirror.cache[n]))])
  {
    assert Commandable(s.io, n);
    TakenAndLoadedDirty(L, s, n);
    LandAppends(L, Apply(L, Apply(L, s, TakeDue(1.0)), LoadDue), n);
    hide Apply, Shaped, SameChannels, Targets;
  }

  lemma LandAppends(L: Layout, s: Sys, n: string)
    requires Targets(s.phase, n) && n in s.io
    ensures var t := Apply(L, s, Land(n));
            t.io == s.io && t.past == s.past.(writes := s.past.writes + [Write(n, s.io[n].value)])
  {
    hide Targets, Landed;
  }

  lemma UnrootedShows(L: Layout, past: History, later: History, io: Tags, io': Tags, n: string, b: Ext)
    requires n in io && SameChannels(io, io') && n !in L.commands && OnlyCommandsSent(L, past.sent) && !Rooted(past.commanded, io, n, b)
    requires later.commanded == past.commanded && later.sent == past.sent
    requires later.writes == past.writes + [Write(n, Clamped(io, n, b))]
    ensures !AllTrace(later, io')
  {
    assert later.writes[|past.writes|] == Write(n, Clamped(io, n, b));
    forall i | 0 <= i < |past.sent| ensures past.sent[i].tag != n { assert past.sent[i].tag in L.commands; }
    forall u | Write(n, u) in past.commanded ensures Clamped(io, n, b) != Clamped(io', n, u) {
      SameClamp(io, io', n, u);
    }
  }

  /** The worker can be brought to give up what it is doing. */
  function GiveUp(p: Phase): (es: (Event, Event))
    ensures !es.0.Gather? && !es.1.Gather?
  {
    match p
    case Commanding(_, _, _) => (LoadCommands, EndCommands(false, 1.0))
    case Flushing(_, _, _) => (LoadDue, EndFlush(false, 1.0))
    case _ => (Abort, EndRead(1.0))
  }

  lemma GivenUpPhase(L: Layout, s: Sys)
    requires PhaseFits(L, s.mirror, s.phase)
    ensures var e := GiveUp(s.phase);
            Apply(L, Apply(L, s, e.0), e.1).phase.Idle?
  {
    var e := GiveUp(s.phase);
    PhaseStep(L, s, e.0);
    PhaseStep(L, Apply(L, s, e.0), e.1);
    hide Apply, TagsOf;
  }

  /** A step that neither publishes, flushes, writes, commands nor sends. */
  predicate Idles(e: Event) {
    !e.Publish? && !(e.EndFlush? && e.ok) && !e.Land? && !e.LiveSet? && !e.Send?
  }

  lemma IdlesKeeps(L: Layout, s: Sys, e: Event)
    requires Shaped(L, s) && Idles(e)
    ensures var t := Apply(L, s, e);
            && t.mirror == s.mirror && SameChannels(s.io, t.io)
            && t.past.commanded == s.past.commanded && t.past.sent == s.past.sent && t.past.writes == s.past.writes
  {
    IoStep(L, s, e);
    IoStays(L, s, e);
    SentKept(L, s, e);
    CommandedKept(L, s, e);
    WritesGrow(L, s, e);
    if e.EndFlush? { EndFlushStep(L, s, false, e.at); } else { MirrorKept(L, s, e); }
    hide Apply, SameChannels, IoAfter, Agree;
  }

  lemma GivenUp(L: Layout, s: Sys)
    requires Shaped(L, s)
    ensures var e := GiveUp(s.phase);
            var t := Apply(L, Apply(L, s, e.0), e.1);
            && t.phase.Idle? && t.mirror == s.mirror && SameChannels(s.io, t.io)
            && t.past.commanded == s.past.commanded && t.past.sent == s.past.sent && t.past.writes == s.past.writes
  {
    var e := GiveUp(s.phase);
    var u := Apply(L, s, e.0);
    GivenUpPhase(L, s);
    ShapedStep(L, s, e.0);
    IdlesKeeps(L, s, e.0);
    IdlesKeeps(L, u, e.1);
    SameTwice(s.io, u.io, Apply(L, u, e.1).io);
    hide Apply, SameChannels, StoresFit, MirrorFits, Agree, TagsOf;
  }

  function Written(L: Layout, s: Sys, n: string): Sys {
    var e := GiveUp(s.phase);
    Apply(L, Apply(L, Apply(L, Apply(L, Apply(L, s, e.0), e.1), TakeDue(1.0)), LoadDue), Land(n))
  }

  lemma DirtyWritten(L: Layout, s: Sys, n: string)
    requires Shaped(L, s) && n in L.writable && n in s.io && n in s.mirror.dirty && n in s.mirror.cache
    ensures var t := Written(L, s, n);
            && t.past.commanded == s.past.commanded && t.past.sent == s.past.sent && SameChannels(s.io, t.io)
            && t.past.writes == s.past.writes + [Write(n, Clamped(s.io, n, s.mirror.cache[n]))]
  {
    var e := GiveUp(s.phase);
    var u := Apply(L, Apply(L, s, e.0), e.1);
    GivenUp(L, s);
    ShapedStep(L, s, e.0);
    ShapedStep(L, Apply(L, s, e.0), e.1);
    FlushWrites(L, u, n);
    SameClamp(s.io, u.io, n, s.mirror.cache[n]);
    SameTwice(s.io, u.io, Written(L, s, n).io);
    hide Apply, Shaped, Clamped, SameChannels;
  }

  lemma DirtyUnrooted(L: Layout, s: Sys, n: string) returns (es: seq<Event>)
    requires Shaped(L, s) && n in L.writable && n in s.io && n in s.mirror.dirty && n in s.mirror.cache
    requires n !in L.commands && OnlyCommandsSent(L, s.past.sent) && !Rooted(s.past.commanded, s.io, n, s.mirror.cache[n])
    ensures (forall i :: 0 <= i < |es| ==> !es[i].Gather?) && !AllTrace(Run(L, s, es).past, Run(L, s, es).io)
  {
    hide Run, Apply, AllTrace, Shaped, Clamped, SameChannels, Rooted, OnlyCommandsSent, GiveUp;
    DirtyWritten(L, s, n);
    UnrootedShows(L, s.past, Written(L, s, n).past, s.io, Written(L, s, n).io, n, s.mirror.cache[n]);
    var e := GiveUp(s.phase);
    es := [e.0, e.1, TakeDue(1.0), LoadDue, Land(n)];
    RunOfFive(L, s, e.0, e.1, TakeDue(1.0), LoadDue, Land(n));
  }

  lemma PublishedDirty(m: Mirror, values: Values, n: string)
    requires n in values && !(n in m.cache && m.cache[n] == values[n])
    ensures var after := Published(m, values);
            n in after.dirty && n in after.cache && after.cache[n] == values[n]
  {}

  /** Once it is read, a value that nobody commanded can be published and written. */
  lemma GatheredUnrooted(L: Layout, s: Sys, n: string) returns (es: seq<Event>)
    requires Shaped(L, s) && n in L.writable && n in s.gathered && AllRooted(s.past.commanded, s.io, s.mirror.cache)
    requires OnlyCommandsSent(L, s.past.sent) && !Rooted(s.past.commanded, s.io, n, s.gathered[n])
    ensures (forall i :: 0 <= i < |es| ==> !es[i].Gather?) && !AllTrace(Run(L, s, es).past, Run(L, s, es).io)
  {
    hide Apply, AllTrace, Rooted, Run, MirrorFits, PhaseFits, Agree, Published;
    var t := Apply(L, s, Publish);
    PublishStep(L, s);
    ShapedStep(L, s, Publish);
    PublishedDirty(s.mirror, s.gathered, n);
    assert L.Apart() && Commandable(s.io, n);
    var more := DirtyUnrooted(L, t, n);
    RunFrom(L, s, Publish, more);
    es := [Publish] + more;
  }

  lemma NeverGathers(L: Layout, s: Sys, back: set<string>, es: seq<Event>)
    requires forall i :: 0 <= i < |es| ==> !es[i].Gather?
    ensures Clean(L, s, back, es)
  {}

  lemma GatherTraced(L: Layout, s: Sys, back: set<string>, n: string)
    requires Shaped(L, s) && Traced(L, s, back) && n in L.writable && n in s.live
    requires Rooted(s.past.commanded, s.io, n, s.live[n].value)
    ensures Traced(L, Apply(L, s, Gather(n)), back - {n})
  {
    GatherStep(L, s, n);
    assert AllRooted(s.past.commanded, s.io, s.gathered[n := s.live[n].value]);
    hide Apply, Rooted, LoadedTraces, AllTrace, Conserved, Shaped;
  }

  /** Reading a live value for publication lets a value be written that nobody commanded, now or
      on any run that publishes no read-back, unless the channel's clamp makes it a commanded
      one. */
  lemma PublishingWritesBackIff(L: Layout, s: Sys, back: set<string>, n: string)
    requires Shaped(L, s) && Traced(L, s, back) && OnlyCommandsSent(L, s.past.sent)
    requires n in L.writable && n in s.live
    ensures var t := Apply(L, s, Gather(n));
            (forall es :: Clean(L, t, back - {n}, es) ==> AllTrace(Run(L, t, es).past, Run(L, t, es).io))
            <==> Rooted(s.past.commanded, s.io, n, s.live[n].value)
  {
    var t := Apply(L, s, Gather(n));
    hide Apply, Shaped, Run, Clean, AllTrace, Rooted, LiveRooted, LoadedTraces, OnlyCommandsSent;
    ShapedStep(L, s, Gather(n));
    if Rooted(s.past.commanded, s.io, n, s.live[n].value) {
      GatherTraced(L, s, back, n);
      forall es | Clean(L, t, back - {n}, es) ensures AllTrace(Run(L, t, es).past, Run(L, t, es).io) {
        StillTraced(L, t, back - {n}, es);
      }
    } else {
      GatherStep(L, s, n);
      var es := GatheredUnrooted(L, t, n);
      NeverGathers(L, t, back - {n}, es);
    }
  }

  lemma Polled(L: Layout, s: Sys, n: string, d: string, b: Ext)
    requires Shaped(L, s) && L.shared && s.phase.Idle? && d in L.channels && n in L.channels[d]
    ensures var t := Apply(L, Apply(L, s, StartRead), Poll(d, map m | m in L.channels[d] :: Some(b)));
            && t.phase.Reading? && n in t.live && t.live[n].value == b && SameChannels(s.io, t.io) && t.mirror == s.mirror
            && t.past == s.past
  {
    var values := map m | m in L.channels[d] :: Some(b);
    var p := s.(phase := Reading(map[], {}));
    assert n in s.io && n in s.live by { ShapedKeeps(L, s, d, n); }
    hide Apply, Goods, AllGood, Shaped, Pollable, SameChannels, PolledIn, WithIo;
    StartReadStep(L, s);
    StartedPolls(L, p, n, d, values, b);
    MirrorKept(L, p, Poll(d, values));
    PastKept(L, p, Poll(d, values));
  }

  lemma ShapedKeeps(L: Layout, s: Sys, d: string, n: string)
    requires Shaped(L, s) && L.shared && d in L.channels && n in L.channels[d]
    ensures n in s.io && n in s.live
  {}

  lemma StartedPolls(L: Layout, p: Sys, n: string, d: string, values: map<string, Option<Ext>>, b: Ext)
    requires L.shared && p.phase == Reading(map[], {}) && d in L.channels && values.Keys == L.channels[d]
    requires n in p.io && n in p.live && n in values && values[n] == Some(b)
    ensures var t := Apply(L, p, Poll(d, values));
            t.phase.Reading? && n in t.live && t.live[n].value == b && SameChannels(p.io, t.io)
  {
    assert Pollable(L, p.phase, d, values);
    hide Apply, Goods, AllGood, Pollable, SameChannels, PolledIn;
    PolledShows(p.io, values, n, b);
    PollStep(L, p, d, values);
    PhaseStep(L, p, Poll(d, values));
  }

  lemma PolledShows(io: Tags, values: map<string, Option<Ext>>, n: string, b: Ext)
    requires n in io && n in values && values[n] == Some(b)
    ensures n in PolledIn(io, values) && PolledIn(io, values)[n].value == b
  {}

  lemma AbortAndEnd(L: Layout, s: Sys)
    requires s.phase.Reading? && s.phase.polled.Keys <= L.channels.Keys
    ensures var t := Apply(L, Apply(L, s, Abort), EndRead(1.0));
            && t.phase.Idle? && t.live == s.live && t.io == s.io && t.mirror == s.mirror
            && t.past.commanded == s.past.commanded && t.past.sent == s.past.sent
  {
    hide Refreshed, Stamped, StampedAt;
  }

  /** A poll that is over leaves what it read in a shared store, committed or not. */
  lemma PolledLive(L: Layout, s: Sys, n: string, d: string, b: Ext)
    requires Shaped(L, s) && L.shared && s.phase.Idle? && d in L.channels && n in L.channels[d]
    ensures var values := map m | m in L.channels[d] :: Some(b);
            var t := Apply(L, Apply(L, Apply(L, Apply(L, s, StartRead), Poll(d, values)), Abort), EndRead(1.0));
            && t.phase.Idle? && n in t.live && t.live[n].value == b && SameChannels(s.io, t.io) && t.mirror == s.mirror
            && t.past.commanded == s.past.commanded && t.past.sent == s.past.sent
  {
    var values := map m | m in L.channels[d] :: Some(b);
    Polled(L, s, n, d, b);
    ShapedStep(L, s, StartRead);
    ShapedStep(L, Apply(L, s, StartRead), Poll(d, values));
    AbortAndEnd(L, Apply(L, Apply(L, s, StartRead), Poll(d, values)));
    hide Apply, SameChannels, StoresFit, MirrorFits, Agree, TagsOf;
  }

  /** A writable register's poll, published. */
  lemma SharedStoreWritesReadBack(L: Layout, s: Sys, n: string, d: string, b: Ext) returns (es: seq<Event>)
    requires Initial(L, s) && L.shared && n in L.writable && d in L.channels && n in L.channels[d]
    requires n in s.io && n in s.live && Clamped(s.io, n, b) != Clamped(s.io, n, s.live[n].value)
    ensures !AllTrace(Run(L, s, es).past, Run(L, s, es).io)
  {
    var values := map m | m in L.channels[d] :: Some(b);
    PolledLive(L, s, n, d, b);
    assert Run(L, s, []) == s && s.phase.Idle? && s.mirror.cache == map[] && s.past.sent == [];
    assert forall u :: Write(n, u) in s.past.commanded ==> u == s.live[n].value;
    assert Shaped(L, s);
    hide Run, Apply, Initial, AllTrace, Shaped;
    var before, t := Then(L, s, [], StartRead);
    before, t := Then(L, s, before, Poll(d, values));
    before, t := Then(L, s, before, Abort);
    before, t := Then(L, s, before, EndRead(1.0));
    ShapedRun(L, s, before);
    assert !Rooted(t.past.commanded, t.io, n, t.live[n].value) by {
      forall u | Write(n, u) in t.past.commanded ensures Clamped(t.io, n, b) != Clamped(t.io, n, u) {
        SameClamp(s.io, t.io, n, b);
        SameClamp(s.io, t.io, n, u);
      }
    }
    GatherStep(L, t, n);
    ShapedStep(L, t, Gather(n));
    RunStep(L, s, before, Gather(n));
    var more := GatheredUnrooted(L, Apply(L, t, Gather(n)), n);
    RunAppend(L, s, before + [Gather(n)], more);
    es := before + [Gather(n)] + more;
  }

  /** The store must be private for no read-back ever to be written out. */
  lemma NoReadBackIffPrivate(L: Layout, s: Sys, n: string, d: string, b: Ext)
    requires Initial(L, s) && n in L.writable && d in L.channels && n in L.channels[d]
    requires n in s.io && n in s.live && Clamped(s.io, n, b) != Clamped(s.io, n, s.live[n].value)
    ensures (forall es :: AllTrace(Run(L, s, es).past, Run(L, s, es).io)) <==> !L.shared
  {
    hide Run, Initial, AllTrace, Clean;
    if L.shared {
      var es := SharedStoreWritesReadBack(L, s, n, d, b);
    } else {
      forall es ensures AllTrace(Run(L, s, es).past, Run(L, s, es).io) {
        PrivateClean(L, s, es);
        ReadBackNeverWritten(L, s, es);
      }
    }
  }

  // --- an old value, stamped as fresh ---------------------------------------------------------------

  function Unread(L: Layout, p: Phase): (rest: set<string>)
    ensures rest <= L.channels.Keys
  {
    if p.Reading? then L.channels.Keys - (p.polled.Keys + p.failed) else {}
  }

  /** The devices a poll has not reached yet can all fail. */
  lemma {:induction false} RestFails(L: Layout, s: Sys, before: seq<Event>, d: string) returns (es: seq<Event>, t: Sys)
    requires Shaped(L, Run(L, s, before)) && InPoll(L, Run(L, s, before).phase, d) && NoCopies(before)
    ensures t == Run(L, s, es) && NoCopies(es) && InPoll(L, t.phase, d) && ReadOver(L, t.phase)
    ensures var u := Run(L, s, before);
            t.phase.polled[d] == u.phase.polled[d] && t.io == u.io && t.meas == u.meas
    decreases Unread(L, Run(L, s, before).phase)
  {
    hide Run, Apply, Shaped, ReadOver, Unread;
    var u := Run(L, s, before);
    if Unread(L, u.phase) == {} {
      AllRead(L, u);
      es, t := before, u;
    } else {
      var e :| e in Unread(L, u.phase);
      var poll := Poll(e, map n | n in L.channels[e] :: None);
      PollFails(L, u, e, d);
      ShapedStep(L, u, poll);
      RunStep(L, s, before, poll);
      es, t := RestFails(L, s, before + [poll], d);
    }
  }

  lemma AllRead(L: Layout, s: Sys)
    requires Shaped(L, s) && s.phase.Reading? && Unread(L, s.phase) == {}
    ensures ReadOver(L, s.phase)
  {
    assert s.phase.polled.Keys + s.phase.failed <= L.channels.Keys;
    assert forall d :: d in L.channels && d !in s.phase.polled.Keys + s.phase.failed ==> d in Unread(L, s.phase);
  }

  ghost predicate NoCopies(es: seq<Event>) {
    forall i :: 0 <= i < |es| ==> !es[i].CopyIn?
  }

  lemma NoneRead(L: Layout, p: Phase, io: Tags, e: string, d: string, values: map<string, Option<Ext>>)
    requires InPoll(L, p, d) && e in Unread(L, p) && values == map n | n in L.channels[e] :: None
    ensures e in L.channels && PolledIn(io, values) == io && Pollable(L, p, e, values)
    ensures var q := AfterPoll(p, e, values);
            InPoll(L, q, d) && q.polled[d] == p.polled[d] && Unread(L, q) == Unread(L, p) - {e}
  {
    var q := AfterPoll(p, e, values);
    if AllGood(values) {
      assert Goods(values) == map[] && q.polled.Keys == p.polled.Keys + {e};
    }
    assert q.polled.Keys + q.failed == p.polled.Keys + p.failed + {e};
  }

  lemma PollFails(L: Layout, s: Sys, e: string, d: string)
    requires Shaped(L, s) && InPoll(L, s.phase, d) && e in Unread(L, s.phase)
    ensures e in L.channels
    ensures var t := Apply(L, s, Poll(e, map n | n in L.channels[e] :: None));
            && InPoll(L, t.phase, d) && t.phase.polled[d] == s.phase.polled[d] && t.io == s.io && t.meas == s.meas
            && Unread(L, t.phase) == Unread(L, s.phase) - {e}
  {
    hide Apply, Shaped, Unread, AfterPoll, Pollable, WithIo, PolledIn;
    var values: map<string, Option<Ext>> := map n | n in L.channels[e] :: None;
    NoneRead(L, s.phase, s.io, e, d, values);
    PollStep(L, s, e, values);
    PhaseStep(L, s, Poll(e, values));
    ReadingsKept(L, s, Poll(e, values));
  }

  /** The poll ends: what was copied over a reading is committed in its place, and stamped. */
  lemma StaleCommitted(L: Layout, s: Sys, d: string, n: string, at: real)
    requires Shaped(L, s) && InPoll(L, s.phase, d) && ReadOver(L, s.phase) && n in L.Measured()[d] && n in s.phase.polled[d]
    requires n in s.io && n in s.meas && s.io[n].value != s.phase.polled[d][n]
    ensures var t := Apply(L, s, EndRead(at));
            && n in t.meas && d in t.past.good && n in t.past.good[d] && t.meas[n] != t.past.good[d][n]
            && d in t.past.stamps && t.past.stamps[d] == at && !MeasuredFrom(L, t.meas, t.past.good)
  {
    assert d in L.channels && n in L.Measured()[d];
    EndReadStep(L, s, at);
    hide Apply, StoresFit, MirrorFits, Agree;
  }

  /** Copying a cached value over a reading that differs from it, and is not committed yet, lets
      the old value be stamped as fresh. */
  lemma OverwritingStales(L: Layout, s: Sys, n: string) returns (es: seq<Event>)
    requires Shaped(L, s) && Overwrites(L, s, CopyIn(n)) && n in s.meas
    ensures var t := Apply(L, s, CopyIn(n));
            NoCopies(es) && !Consistent(L, Run(L, t, es))
  {
    var t := Apply(L, s, CopyIn(n));
    var d :| d in s.phase.polled && InPoll(L, s.phase, d) && n in L.Measured()[d] && n in s.phase.polled[d]
             && s.phase.polled[d][n] != s.fetched[n];
    CopiedOver(L, s, n);
    ShapedStep(L, s, CopyIn(n));
    hide Apply, Shaped, Consistent, ReadAnew, Overwrites;
    es := ReadingStales(L, t, d, n);
  }

  lemma ReadingStales(L: Layout, s: Sys, d: string, n: string) returns (es: seq<Event>)
    requires Shaped(L, s) && InPoll(L, s.phase, d) && n in L.Measured()[d] && n in s.phase.polled[d]
    requires n in s.io && n in s.meas && s.io[n].value != s.phase.polled[d][n]
    ensures NoCopies(es) && !Consistent(L, Run(L, s, es))
  {
    assert Run(L, s, []) == s;
    hide Run, Apply, Shaped, MeasuredFrom;
    var before, u := RestFails(L, s, [], d);
    ShapedRun(L, s, before);
    StaleCommitted(L, u, d, n, 1.0);
    RunStep(L, s, before, EndRead(1.0));
    es := before + [EndRead(1.0)];
  }

  lemma CopiedOver(L: Layout, s: Sys, n: string)
    requires Shaped(L, s) && L.shared && n in s.fetched && (exists d :: d in L.channels && n in L.channels[d])
    ensures var t := Apply(L, s, CopyIn(n));
            n in t.io && t.io[n].value == s.fetched[n] && t.phase == s.phase && t.meas == s.meas
  {
    var d :| d in L.channels && n in L.channels[d];
    assert n in s.io;
    CopyStep(L, s, n);
    PhaseStep(L, s, CopyIn(n));
    ReadingsKept(L, s, CopyIn(n));
    hide Apply, MirrorFits, PhaseFits, TagsOf;
  }

  lemma NeverCopies(L: Layout, s: Sys, es: seq<Event>)
    requires NoCopies(es)
    ensures Unspoilt(L, s, es)
  {}

  /** The foreground's copy of one value is harmless to the cache, now and on every run that
      overwrites no later reading, exactly if it overwrites none itself. */
  lemma CopyingStalesIff(L: Layout, s: Sys, n: string)
    requires Shaped(L, s) && ReadsHold(L, s) && n in s.meas
    ensures var t := Apply(L, s, CopyIn(n));
            (forall es :: Unspoilt(L, t, es) ==> Consistent(L, Run(L, t, es))) <==> !Overwrites(L, s, CopyIn(n))
  {
    var t := Apply(L, s, CopyIn(n));
    hide Shaped, MeasuredFrom, StampedFrom, StillInStore, Overwrites, Apply, Run, Unspoilt;
    if Overwrites(L, s, CopyIn(n)) {
      var es := OverwritingStales(L, s, n);
      NeverCopies(L, t, es);
    } else {
      ShapedStep(L, s, CopyIn(n));
      ReadsHoldStep(L, s, CopyIn(n));
      forall es | Unspoilt(L, t, es) ensures Consistent(L, Run(L, t, es)) {
        StillReads(L, t, es);
      }
    }
  }

  lemma FirstReading(L: Layout, s: Sys, d: string, n: string)
    requires L.shared && s.phase.Idle? && d in L.channels && n in L.Measured()[d] && n in s.fetched && s.fetched[n] == Fin(0.0)
    ensures var values := map m | m in L.channels[d] :: Some(Fin(1.0));
            Overwrites(L, Apply(L, Apply(L, s, StartRead), Poll(d, values)), CopyIn(n))
  {
    var values := map m | m in L.channels[d] :: Some(Fin(1.0));
    var p := s.(phase := Reading(map[], {}));
    StartReadStep(L, s);
    hide Apply, ReadAnew, AfterPoll, Pollable;
    PhaseStep(L, p, Poll(d, values));
    FetchedKept(L, p, Poll(d, values));
    FirstPolled(L, d, n, values);
  }

  lemma FirstPolled(L: Layout, d: string, n: string, values: map<string, Option<Ext>>)
    requires d in L.channels && n in L.Measured()[d] && values == (map m | m in L.channels[d] :: Some(Fin(1.0)))
    ensures var p := Reading(map[], {});
            Pollable(L, p, d, values) && ReadAnew(L, AfterPoll(p, d, values), n, Fin(0.0))
  {
    var q := AfterPoll(Reading(map[], {}), d, values);
    assert AllGood(values) && q.polled[d] == Goods(values) && Goods(values)[n] == Fin(1.0) && InPoll(L, q, d);
  }

  /** The cache is copied out before a poll; what was copied is laid over what the poll reads. */
  lemma SharedStoreFreshensStale(L: Layout, s: Sys, d: string, n: string) returns (es: seq<Event>)
    requires Initial(L, s) && L.shared && d in L.channels && n in L.Measured()[d]
    ensures !Consistent(L, Run(L, s, es))
  {
    assert Run(L, s, []) == s && Shaped(L, s) && s.phase.Idle? && n in s.meas && s.meas[n] == Fin(0.0);
    var f := Apply(L, s, Fetch);
    FetchStep(L, s);
    FirstReading(L, f, d, n);
    hide Run, Apply, Initial, Shaped, MeasuredFrom, Overwrites;
    var before, t := Then(L, s, [], Fetch);
    before, t := Then(L, s, before, StartRead);
    before, t := Then(L, s, before, Poll(d, map m | m in L.channels[d] :: Some(Fin(1.0))));
    ShapedRun(L, s, before);
    StillCached(L, f, d, map m | m in L.channels[d] :: Some(Fin(1.0)));
    var more := OverwritingStales(L, t, n);
    RunStep(L, s, before, CopyIn(n));
    RunAppend(L, s, before + [CopyIn(n)], more);
    es := before + [CopyIn(n)] + more;
  }

  lemma StillCached(L: Layout, s: Sys, d: string, values: map<string, Option<Ext>>)
    ensures Apply(L, Apply(L, s, StartRead), Poll(d, values)).meas == s.meas
  {
    ReadingsKept(L, s, StartRead);
    ReadingsKept(L, Apply(L, s, StartRead), Poll(d, values));
    hide Apply;
  }

  /** The store must be private for the cache to be consistent on every interleaving. */
  lemma SnapshotsConsistentIffPrivate(L: Layout, s: Sys, d: string, n: string)
    requires Initial(L, s) && d in L.channels && n in L.Measured()[d]
    ensures (forall es :: Consistent(L, Run(L, s, es))) <==> !L.shared
  {
    hide Run, Initial, MeasuredFrom, StampedFrom, StillInStore, Overwrites;
    if L.shared {
      var es := SharedStoreFreshensStale(L, s, d, n);
    } else {
      forall es ensures Consistent(L, Run(L, s, es)) {
        PrivateUnspoilt(L, s, es);
        SnapshotsConsistent(L, s, es);
      }
    }
  }

  lemma PrivateUnspoilt(L: Layout, s: Sys, es: seq<Event>)
    requires !L.shared
    ensures Unspoilt(L, s, es)
  {}
}
