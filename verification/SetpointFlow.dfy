/** Setpoints on their way to the device, on every interleaving in which no loaded register is
    changed before it is written: with a private store, that is every interleaving. */
module SetpointFlow {
  import opened Num
  import opened Channels
  import opened CachedDriver
  import opened Interleaving

  ghost predicate Initial(L: Layout, s: Sys) {
    && Shaped(L, s)
    && s.mirror == Mirror(map[], {}, map[], false) && s.queue == [] && s.phase == Idle && s.device == map[]
    && s.meas == (map d, n | d in L.channels && n in L.Measured()[d] :: n := Fin(0.0))
    && s.lastOk == (map d | d in L.channels :: 0.0) && s.lastWriteOk == 0.0
    && s.gathered == map[] && s.fetched == map[]
    && s.past == History(set n | n in L.writable :: Write(n, s.live[n].value), [], [], map[], map[], [], [])
  }

  ghost predicate OnDevice(io: Tags, device: Values, n: string, v: Ext) {
    n in io && n in device && device[n] == Clamped(io, n, v)
  }

  /** A cached name that is not dirty is the value last written to the device. */
  ghost predicate Delivered(m: Mirror, io: Tags, device: Values) {
    forall n :: n in m.cache && n !in m.dirty ==> OnDevice(io, device, n, m.cache[n])
  }

  /** No setpoint is taken for delivered that is not. */
  ghost predicate CleanOnDevice(s: Sys) {
    Delivered(s.mirror, s.io, s.device)
  }

  /** The store holds what the flush still has to write. */
  ghost predicate FlushLoaded(p: Phase, io: Tags) {
    p.Flushing? ==> forall n :: Targets(p, n) ==> n in io && io[n].value == Clamped(io, n, p.pending[n])
  }

  /** A flush carries what was cached when it began, from the loaded store to the device. */
  ghost predicate FlushHolds(p: Phase, m: Mirror, io: Tags, device: Values) {
    p.Flushing? ==>
      && (forall n :: n in p.pending && n !in m.dirty ==> n in m.cache && m.cache[n] == p.pending[n])
      && FlushLoaded(p, io)
      && (forall n :: n in p.landed ==> n in p.pending && OnDevice(io, device, n, p.pending[n]))
      && (p.landed != {} ==> p.loaded)
  }

  ghost predicate NothingLost(s: Sys) {
    Delivered(s.mirror, s.io, s.device) && FlushHolds(s.phase, s.mirror, s.io, s.device)
  }

  // What a flush carries does not depend on what went wrong before it; what is clean does.

  lemma PublishKeeps(m: Mirror, values: Values, p: Phase, io: Tags, device: Values)
    requires FlushHolds(p, m, io, device)
    ensures FlushHolds(p, Published(m, values), io, device)
    ensures Delivered(m, io, device) ==> Delivered(Published(m, values), io, device)
  {
    hide FlushLoaded, OnDevice;
  }

  lemma TakeKeeps(m: Mirror, now: real, rewrite: real, io: Tags, device: Values)
    ensures FlushHolds(Flushing(Due(m, now, rewrite), false, {}), m, io, device)
  {}

  lemma LoadKeeps(L: Layout, m: Mirror, live: Tags, p: Phase, io: Tags, device: Values)
    requires StoresFit(L, live, io) && p.Flushing? && p.pending.Keys <= L.writable && !p.loaded && FlushHolds(p, m, io, device)
    ensures var after := LoadedAll(io, p.pending);
            && FlushHolds(Flushing(p.pending, true, p.landed), m, after, device)
            && (Delivered(m, io, device) ==> Delivered(m, after, device))
  {}

  lemma LandKeeps(L: Layout, m: Mirror, p: Phase, io: Tags, device: Values, tag: string)
    requires L.Apart() && MirrorFits(L, m) && PhaseFits(L, m, p) && Targets(p, tag) && tag in io && FlushHolds(p, m, io, device)
    ensures var after := device[tag := io[tag].value];
            && FlushHolds(Landed(p, tag), m, io, after)
            && (Delivered(m, io, device) ==> Delivered(m, io, after))
  {}

  lemma SettleKeeps(m: Mirror, p: Phase, io: Tags, device: Values, at: real)
    requires p.Flushing? && p.pending.Keys <= p.landed && FlushHolds(p, m, io, device)
    ensures Delivered(m, io, device) ==> Delivered(Settled(m, p.pending, at), io, device)
  {}

  lemma OtherIo(m: Mirror, p: Phase, io: Tags, io': Tags, device: Values)
    requires SameChannels(io, io') && FlushHolds(p, m, io, device)
    requires forall n :: Targets(p, n) ==> n in io && n in io' && io'[n].value == io[n].value
    ensures FlushHolds(p, m, io', device) && (Delivered(m, io, device) ==> Delivered(m, io', device))
  {}

  /** The steps that touch neither mirror, device nor phase. */
  predicate Unrelated(e: Event) {
    e.LiveSet? || e.Send? || e.Gather? || e.Fetch? || e.CopyIn? || e.Observe?
  }

  lemma UnrelatedKeeps(L: Layout, s: Sys, e: Event)
    requires Unrelated(e)
    ensures Apply(L, s, e).phase == s.phase
  {
    hide Foreground, CommandPass, FlushPass, ReadPass;
  }

  /** The steps of commands and polls leave mirror and device alone, and no flush begins. */
  predicate Beside(e: Event) {
    e.TakeCommands? || e.LoadCommands? || e.EndCommands? || e.StartRead? || e.Poll? || e.Abort? || e.EndRead?
  }

  lemma DeviceKept(L: Layout, s: Sys, e: Event)
    requires !e.Land?
    ensures Apply(L, s, e).device == s.device
  {
    hide Foreground, CommandPass, FlushPass, ReadPass;
  }

  lemma BesideKeeps(L: Layout, s: Sys, e: Event)
    requires Beside(e)
    ensures if s.phase.Flushing? then Apply(L, s, e).phase == s.phase else !Apply(L, s, e).phase.Flushing?
  {
    PhaseStep(L, s, e);
    hide Apply, AfterPoll, TagsOf;
  }

  lemma FlushStep(L: Layout, s: Sys, e: Event)
    requires !Unrelated(e) && !Beside(e) && !e.Land? && Shaped(L, s) && FlushHolds(s.phase, s.mirror, s.io, s.device)
    ensures var t := Apply(L, s, e);
            FlushHolds(t.phase, t.mirror, t.io, t.device) && (NothingLost(s) ==> NothingLost(t))
  {
    hide Apply, Delivered, FlushHolds, Shaped, LoadedAll, Due, Settled, Published;
    match e {
      case Publish =>
        PublishStep(L, s);
        PublishKeeps(s.mirror, s.gathered, s.phase, s.io, s.device);
      case TakeDue(now) =>
        PhaseStep(L, s, e);
        StoresKept(L, s, e);
        MirrorKept(L, s, e);
        DeviceKept(L, s, e);
        TakeKeeps(s.mirror, now, L.rewrite, s.io, s.device);
      case LoadDue =>
        LoadDueKeeps(L, s);
      case EndFlush(ok, at) =>
        EndFlushStep(L, s, ok, at);
        NotFlushing(Apply(L, s, e));
        if FlushOver(s.phase, true) { SettleKeeps(s.mirror, s.phase, s.io, s.device, at); }
    }
  }

  lemma LoadDueKeeps(L: Layout, s: Sys)
    requires Shaped(L, s) && FlushHolds(s.phase, s.mirror, s.io, s.device)
    ensures var t := Apply(L, s, LoadDue);
            FlushHolds(t.phase, t.mirror, t.io, t.device) && (NothingLost(s) ==> NothingLost(t))
  {
    hide Apply, Delivered, FlushHolds, MirrorFits, LoadedAll, Agree, Unwritable, StoresFit;
    LoadDueStep(L, s);
    PhaseStep(L, s, LoadDue);
    MirrorKept(L, s, LoadDue);
    DeviceKept(L, s, LoadDue);
    if s.phase.Flushing? && !s.phase.loaded {
      FlushWritable(L, s);
      LoadKeeps(L, s.mirror, s.live, s.phase, s.io, s.device);
    }
  }

  lemma FlushWritable(L: Layout, s: Sys)
    requires Shaped(L, s) && s.phase.Flushing?
    ensures s.phase.pending.Keys <= L.writable
  {}

  lemma LandKeepsAll(L: Layout, s: Sys, tag: string)
    requires Shaped(L, s) && FlushHolds(s.phase, s.mirror, s.io, s.device)
    ensures var t := Apply(L, s, Land(tag));
            FlushHolds(t.phase, t.mirror, t.io, t.device) && (NothingLost(s) ==> NothingLost(t))
  {
    assert L.Apart();
    if Targets(s.phase, tag) && tag in s.io { LandKeeps(L, s.mirror, s.phase, s.io, s.device, tag); }
    hide Delivered, FlushHolds, Shaped, Targets, Landed;
  }

  lemma NotFlushing(s: Sys)
    ensures !s.phase.Flushing? ==> FlushHolds(s.phase, s.mirror, s.io, s.device)
  {}

  lemma NothingLostStep(L: Layout, s: Sys, e: Event)
    requires Shaped(L, s) && FlushHolds(s.phase, s.mirror, s.io, s.device) && !Disturbs(L, s, e)
    ensures var t := Apply(L, s, e);
            FlushHolds(t.phase, t.mirror, t.io, t.device) && (NothingLost(s) ==> NothingLost(t))
  {
    if Unrelated(e) || Beside(e) {
      var t := Apply(L, s, e);
      IoStep(L, s, e);
      IoStays(L, s, e);
      TargetsKept(L, s, e);
      OtherIo(s.mirror, s.phase, s.io, t.io, s.device);
      NotFlushing(t);
      DeviceKept(L, s, e);
      MirrorKept(L, s, e);
      if Unrelated(e) { UnrelatedKeeps(L, s, e); } else { BesideKeeps(L, s, e); }
      hide Apply, Delivered, FlushHolds, Shaped, Targets, IoAfter, Agree, Disturbs;
    } else if e.Land? {
      LandKeepsAll(L, s, e.tag);
    } else {
      FlushStep(L, s, e);
    }
  }

  lemma {:induction false} StillHolds(L: Layout, s: Sys, es: seq<Event>)
    requires Shaped(L, s) && FlushHolds(s.phase, s.mirror, s.io, s.device) && Undisturbed(L, s, es)
    ensures var t := Run(L, s, es);
            Shaped(L, t) && FlushHolds(t.phase, t.mirror, t.io, t.device) && (NothingLost(s) ==> NothingLost(t))
  {
    if es != [] {
      UndisturbedInit(L, s, es);
      hide Shaped, NothingLost, FlushHolds, Apply, Undisturbed, Disturbs;
      var init := es[..|es| - 1];
      StillHolds(L, s, init);
      ShapedStep(L, Run(L, s, init), es[|es| - 1]);
      NothingLostStep(L, Run(L, s, init), es[|es| - 1]);
    }
  }

  /** On every interleaving in which the foreground changes no register between its loading and
      its writing, a cached name that is not dirty is the value last written to the device. */
  lemma NoLostSetpoint(L: Layout, s: Sys, es: seq<Event>)
    requires Initial(L, s) && Undisturbed(L, s, es)
    ensures Shaped(L, Run(L, s, es)) && NothingLost(Run(L, s, es))
  {
    StillHolds(L, s, es);
  }

  // --- a pass without publications ---------------------------------------------------------------

  /** Nothing has been published since the flush under way took its values, if one is. */
  ghost predicate Quiet(p: Phase, m: Mirror) {
    if p.Flushing?
    then forall n :: n in m.dirty ==> n in p.pending && n in m.cache && m.cache[n] == p.pending[n]
    else m.dirty == {}
  }

  lemma TakeQuiet(L: Layout, s: Sys, now: real)
    requires Shaped(L, s) && s.phase.Idle?
    ensures var t := Apply(L, s, TakeDue(now));
            Quiet(t.phase, t.mirror) && t.mirror == s.mirror
  {
    assert forall n :: n in s.mirror.dirty ==> n in Due(s.mirror, now, L.rewrite);
    PhaseStep(L, s, TakeDue(now));
    MirrorKept(L, s, TakeDue(now));
    hide Apply, StoresFit, TagsOf, Agree;
  }

  lemma FlushGoesOn(L: Layout, s: Sys, e: Event)
    requires Quiescent(e) && s.phase.Flushing?
    ensures Apply(L, s, e).phase.Flushing? && Apply(L, s, e).phase.pending == s.phase.pending
  {
    PhaseStep(L, s, e);
    hide Apply, AfterPoll, TagsOf;
  }

  lemma QuietStep(L: Layout, s: Sys, e: Event)
    requires Quiet(s.phase, s.mirror) && Quiescent(e)
    ensures var t := Apply(L, s, e);
            Quiet(t.phase, t.mirror) && t.mirror == s.mirror
  {
    MirrorKept(L, s, e);
    if s.phase.Flushing? { FlushGoesOn(L, s, e); }
    hide Apply;
  }

  ghost predicate AllQuiescent(es: seq<Event>) {
    forall i :: 0 <= i < |es| ==> Quiescent(es[i])
  }

  lemma {:induction false} QuietRun(L: Layout, s: Sys, es: seq<Event>)
    requires Quiet(s.phase, s.mirror) && AllQuiescent(es)
    ensures var t := Run(L, s, es);
            Quiet(t.phase, t.mirror) && t.mirror == s.mirror
  {
    if es != [] {
      assert AllQuiescent(es[..|es| - 1]) && Quiescent(es[|es| - 1]);
      hide Quiet, Apply, AllQuiescent;
      QuietRun(L, s, es[..|es| - 1]);
      QuietStep(L, Run(L, s, es[..|es| - 1]), es[|es| - 1]);
    }
  }

  lemma EndQuiet(L: Layout, s: Sys, at: real)
    requires MirrorFits(L, s.mirror) && Quiet(s.phase, s.mirror)
    ensures var t := Apply(L, s, EndFlush(true, at));
            t.mirror.cache == s.mirror.cache && (t.phase.Idle? ==> t.mirror.dirty == {})
  {}

  lemma {:induction false} FlushGoesOnRun(L: Layout, s: Sys, es: seq<Event>)
    requires AllQuiescent(es) && s.phase.Flushing?
    ensures var t := Run(L, s, es);
            t.phase.Flushing? && t.phase.pending == s.phase.pending
  {
    if es != [] {
      assert AllQuiescent(es[..|es| - 1]) && Quiescent(es[|es| - 1]);
      hide Apply, AllQuiescent;
      FlushGoesOnRun(L, s, es[..|es| - 1]);
      FlushGoesOn(L, Run(L, s, es[..|es| - 1]), es[|es| - 1]);
    }
  }

  /** A flush that ends well has put on the device all it took. */
  lemma EndDelivers(L: Layout, s: Sys, at: real)
    requires FlushHolds(s.phase, s.mirror, s.io, s.device) && s.phase.Flushing?
    ensures var t := Apply(L, s, EndFlush(true, at));
            t.phase.Idle? ==> forall n :: n in s.phase.pending ==> OnDevice(t.io, t.device, n, s.phase.pending[n])
  {}

  /** One undisturbed flush, from a state of any history. */
  lemma PassDelivers(L: Layout, s: Sys, now: real, mid: seq<Event>, at: real)
    requires Shaped(L, s) && s.phase.Idle?
    requires AllQuiescent(mid) && Undisturbed(L, Apply(L, s, TakeDue(now)), mid)
    ensures var t := Apply(L, Run(L, Apply(L, s, TakeDue(now)), mid), EndFlush(true, at));
            && (t.phase.Idle? ==> t.mirror.cache == s.mirror.cache && t.mirror.dirty == {})
            && (t.phase.Idle? ==> forall n :: n in Due(s.mirror, now, L.rewrite) ==> OnDevice(t.io, t.device, n, s.mirror.cache[n]))
            && (NothingLost(s) ==> NothingLost(t))
  {
    var taken := Apply(L, s, TakeDue(now));
    var before := Run(L, taken, mid);
    TakeQuiet(L, s, now);
    ShapedStep(L, s, TakeDue(now));
    NotFlushing(s);
    NothingLostStep(L, s, TakeDue(now));
    QuietRun(L, taken, mid);
    StillHolds(L, taken, mid);
    NothingLostStep(L, before, EndFlush(true, at));
    EndQuiet(L, before, at);
    if Due(s.mirror, now, L.rewrite) != map[] {
      assert taken.phase == Flushing(Due(s.mirror, now, L.rewrite), false, {});
      FlushGoesOnRun(L, taken, mid);
      EndDelivers(L, before, at);
      assert forall n :: n in Due(s.mirror, now, L.rewrite) ==> Due(s.mirror, now, L.rewrite)[n] == s.mirror.cache[n];
    }
    hide Apply, Quiet, Due, OnDevice, FlushHolds, Undisturbed, AllQuiescent, Shaped, Delivered;
  }

  /** A flush that starts now, meets no publication and no disturbance and succeeds, leaves what
      it took on the device at its newest value, whatever happened before and whatever else
      either thread does meanwhile; and every cached setpoint, if nothing was disturbed before. */
  lemma QuiescentPassDelivers(L: Layout, s0: Sys, es: seq<Event>, now: real, mid: seq<Event>, at: real)
    requires Initial(L, s0) && Run(L, s0, es).phase.Idle?
    requires AllQuiescent(mid) && Undisturbed(L, Apply(L, Run(L, s0, es), TakeDue(now)), mid)
    ensures var s := Run(L, s0, es);
            var t := Apply(L, Run(L, Apply(L, s, TakeDue(now)), mid), EndFlush(true, at));
            t.phase.Idle? ==>
              && t.mirror.cache == s.mirror.cache && t.mirror.dirty == {} && s.mirror.dirty <= Due(s.mirror, now, L.rewrite).Keys
              && (forall n :: n in Due(s.mirror, now, L.rewrite) ==> OnDevice(t.io, t.device, n, s.mirror.cache[n]))
              && (Undisturbed(L, s0, es) ==> forall n :: n in s.mirror.cache ==> OnDevice(t.io, t.device, n, s.mirror.cache[n]))
  {
    var s := Run(L, s0, es);
    ShapedRun(L, s0, es);
    PassDelivers(L, s, now, mid, at);
    if Undisturbed(L, s0, es) { NoLostSetpoint(L, s0, es); }
    assert s.mirror.dirty <= Due(s.mirror, now, L.rewrite).Keys;
    hide Apply, Run, Initial, OnDevice, FlushHolds, Undisturbed, AllQuiescent, Shaped, Due;
  }
}
