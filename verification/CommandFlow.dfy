/** One-shot commands, on every interleaving: what is written and what is accounted for in any
    layout, and the values as long as no loaded register is changed before it is written. */
module CommandFlow {
  import opened Channels
  import opened CachedDriver
  import opened Interleaving
  import opened SetpointFlow

  /** Delivered batches, the batch in flight and the queue are the whole history, in order. */
  ghost predicate Conserved(done: seq<Command>, p: Phase, queue: seq<Command>, sent: seq<Command>) {
    done + Inflight(p) + queue == sent
  }

  /** The store holds what the transaction still has to write. */
  ghost predicate Prepared(p: Phase, io: Tags) {
    p.Commanding? ==>
      forall tag :: Targets(p, tag) ==> tag in io && io[tag].value == Clamped(io, tag, LastValue(p.cmds, tag).value)
  }

  ghost predicate Standing(cmds: seq<Command>, tags: set<string>, io: Tags, device: Values) {
    forall tag :: tag in tags ==> tag in TagsOf(cmds) && OnDevice(io, device, tag, LastValue(cmds, tag).value)
  }

  /** The tags no newer command is on its way to. */
  ghost function AtRest(done: seq<Command>, p: Phase, queue: seq<Command>): set<string> {
    TagsOf(done) - TagsOf(Inflight(p)) - TagsOf(queue)
  }

  /** Where a command's last value is: loaded for the transaction, written by it, or standing on
      the device once nothing newer is on its way. */
  ghost predicate CommandsHold(L: Layout, p: Phase, done: seq<Command>, queue: seq<Command>, io: Tags, device: Values) {
    && Prepared(p, io)
    && (p.Commanding? ==> Standing(p.cmds, p.written, io, device) && (p.written != {} ==> p.prepared))
    && TagsOf(done) <= L.commands && Standing(done, AtRest(done, p, queue), io, device)
  }

  ghost predicate Held(L: Layout, s: Sys) {
    && Conserved(s.past.done, s.phase, s.queue, s.past.sent)
    && CommandsHold(L, s.phase, s.past.done, s.queue, s.io, s.device)
  }

  // one lemma a step that matters

  lemma SendHolds(L: Layout, p: Phase, done: seq<Command>, queue: seq<Command>, sent: seq<Command>, io: Tags, device: Values, c: Command)
    requires Conserved(done, p, queue, sent) && CommandsHold(L, p, done, queue, io, device)
    ensures Conserved(done, p, queue + [c], sent + [c]) && CommandsHold(L, p, done, queue + [c], io, device)
  {
    TagsAppend(queue, [c]);
    assert done + Inflight(p) + (queue + [c]) == done + Inflight(p) + queue + [c];
  }

  lemma TakeHolds(L: Layout, done: seq<Command>, queue: seq<Command>, sent: seq<Command>, io: Tags, device: Values)
    requires Conserved(done, Idle, queue, sent) && CommandsHold(L, Idle, done, queue, io, device)
    ensures Conserved(done, Commanding(queue, false, {}), [], sent)
    ensures CommandsHold(L, Commanding(queue, false, {}), done, [], io, device)
  {}

  lemma LoadHolds(L: Layout, live: Tags, p: Phase, done: seq<Command>, queue: seq<Command>, io: Tags, device: Values)
    requires StoresFit(L, live, io) && p.Commanding? && TagsOf(p.cmds) <= L.commands && !p.prepared
    requires CommandsHold(L, p, done, queue, io, device)
    ensures CommandsHold(L, Commanding(p.cmds, true, p.written), done, queue, Loaded(io, p.cmds), device)
  {
    var after := Loaded(io, p.cmds);
    assert Prepared(Commanding(p.cmds, true, p.written), after) by {
      forall tag | tag in TagsOf(p.cmds)
        ensures tag in after && after[tag].value == Clamped(after, tag, LastValue(p.cmds, tag).value)
      {
        LoadedHoldsLast(io, p.cmds, tag);
      }
    }
    StandsElsewhere(done, AtRest(done, p, queue), io, after, device);
    StandsElsewhere(p.cmds, p.written, io, after, device);
    hide Standing, Prepared, Loaded, StoresFit, AtRest;
    assert AtRest(done, Commanding(p.cmds, true, p.written), queue) == AtRest(done, p, queue) by {
      SameInflight(done, p, Commanding(p.cmds, true, p.written), queue);
    }
  }

  lemma SameInflight(done: seq<Command>, p: Phase, q: Phase, queue: seq<Command>)
    requires Inflight(p) == Inflight(q)
    ensures AtRest(done, p, queue) == AtRest(done, q, queue)
  {}

  lemma StandsElsewhere(cmds: seq<Command>, tags: set<string>, io: Tags, io': Tags, device: Values)
    requires Standing(cmds, tags, io, device) && SameChannels(io, io')
    ensures Standing(cmds, tags, io', device)
  {}

  lemma FailHolds(L: Layout, p: Phase, done: seq<Command>, queue: seq<Command>, sent: seq<Command>, io: Tags, device: Values)
    requires p.Commanding? && Conserved(done, p, queue, sent) && CommandsHold(L, p, done, queue, io, device)
    ensures Conserved(done, Idle, p.cmds + queue, sent) && CommandsHold(L, Idle, done, p.cmds + queue, io, device)
  {
    TagsAppend(p.cmds, queue);
    assert done + [] + (p.cmds + queue) == done + p.cmds + queue;
  }

  lemma DoneHolds(L: Layout, p: Phase, done: seq<Command>, queue: seq<Command>, sent: seq<Command>, io: Tags, device: Values)
    requires p.Commanding? && TagsOf(p.cmds) <= L.commands && TagsOf(p.cmds) <= p.written
    requires Conserved(done, p, queue, sent) && CommandsHold(L, p, done, queue, io, device)
    ensures Conserved(done + p.cmds, Idle, queue, sent) && CommandsHold(L, Idle, done + p.cmds, queue, io, device)
  {
    TagsAppend(done, p.cmds);
    assert done + p.cmds + [] + queue == done + p.cmds + queue;
    forall tag | tag in AtRest(done + p.cmds, Idle, queue)
      ensures OnDevice(io, device, tag, LastValue(done + p.cmds, tag).value)
    {
      LastValueAppend(done, p.cmds, tag);
      if tag in TagsOf(p.cmds) { assert tag in p.written; } else { assert tag in AtRest(done, p, queue); }
    }
  }

  lemma LandHolds(L: Layout, m: Mirror, p: Phase, done: seq<Command>, queue: seq<Command>, io: Tags, device: Values, tag: string)
    requires L.Apart() && MirrorFits(L, m) && PhaseFits(L, m, p) && Targets(p, tag) && tag in io
    requires CommandsHold(L, p, done, queue, io, device)
    ensures CommandsHold(L, Landed(p, tag), done, queue, io, device[tag := io[tag].value])
  {
    var after := device[tag := io[tag].value];
    SameInflight(done, p, Landed(p, tag), queue);
    assert tag !in AtRest(done, p, queue);
    assert Standing(done, AtRest(done, p, queue), io, after);
    hide AtRest;
  }

  // what the other steps leave alone

  lemma WritesGrow(L: Layout, s: Sys, e: Event)
    ensures Apply(L, s, e).past.writes ==
            if e.Land? && Targets(s.phase, e.tag) && e.tag in s.io then s.past.writes + [Write(e.tag, s.io[e.tag].value)]
            else s.past.writes
  {
    hide Foreground, CommandPass, ReadPass, WithIo, Landed, Targets;
    if !e.Land? { hide FlushPass; }
  }

  predicate MovesCommands(e: Event) {
    e.Send? || e.TakeCommands? || e.LoadCommands? || e.EndCommands?
  }

  lemma QueueKept(L: Layout, s: Sys, e: Event)
    requires !MovesCommands(e)
    ensures Apply(L, s, e).queue == s.queue
  {
    hide Foreground, CommandPass, FlushPass, ReadPass;
  }

  lemma AccountKept(L: Layout, s: Sys, e: Event)
    requires !MovesCommands(e)
    ensures Apply(L, s, e).past.done == s.past.done && Apply(L, s, e).past.sent == s.past.sent
  {
    hide Foreground, CommandPass, FlushPass, ReadPass;
  }

  /** A command transaction is moved on by its own steps and by what lands. */
  lemma CommandingKept(L: Layout, s: Sys, e: Event)
    requires !MovesCommands(e) && !e.Land?
    ensures if s.phase.Commanding? then Apply(L, s, e).phase == s.phase else !Apply(L, s, e).phase.Commanding?
  {
    PhaseStep(L, s, e);
    hide Apply, AfterPoll, TagsOf;
  }

  lemma ElsewhereHolds(L: Layout, p: Phase, q: Phase, done: seq<Command>, queue: seq<Command>, io: Tags, io': Tags, device: Values)
    requires CommandsHold(L, p, done, queue, io, device) && SameChannels(io, io')
    requires if p.Commanding? then q == p else !q.Commanding?
    requires forall n :: Targets(p, n) ==> n in io && n in io' && io'[n].value == io[n].value
    ensures CommandsHold(L, q, done, queue, io', device)
  {
    SameInflight(done, p, q, queue);
    StandsElsewhere(done, AtRest(done, p, queue), io, io', device);
    if p.Commanding? { StandsElsewhere(p.cmds, p.written, io, io', device); }
    hide AtRest, Standing, Targets;
  }

  lemma HeldStep(L: Layout, s: Sys, e: Event)
    requires Shaped(L, s) && Held(L, s) && !Disturbs(L, s, e)
    ensures Held(L, Apply(L, s, e))
  {
    if MovesCommands(e) {
      MovesHold(L, s, e);
    } else if e.Land? {
      LandHeld(L, s, e.tag);
    } else {
      IoStep(L, s, e);
      IoStays(L, s, e);
      TargetsKept(L, s, e);
      DeviceKept(L, s, e);
      QueueKept(L, s, e);
      AccountKept(L, s, e);
      CommandingKept(L, s, e);
      var t := Apply(L, s, e);
      ElsewhereHolds(L, s.phase, t.phase, s.past.done, s.queue, s.io, t.io, s.device);
      SameAccount(s.past.done, s.phase, t.phase, s.queue, s.past.sent);
      hide Apply, CommandsHold, Conserved, IoAfter, Targets, Shaped, Disturbs, Agree;
    }
  }

  lemma LandHeld(L: Layout, s: Sys, tag: string)
    requires Shaped(L, s) && Held(L, s)
    ensures Held(L, Apply(L, s, Land(tag)))
  {
    assert L.Apart();
    LandStep(L, s, tag);
    if Targets(s.phase, tag) && tag in s.io {
      LandHolds(L, s.mirror, s.phase, s.past.done, s.queue, s.io, s.device, tag);
      SameAccount(s.past.done, s.phase, Landed(s.phase, tag), s.queue, s.past.sent);
    }
    hide Apply, CommandsHold, Conserved, Shaped, Targets;
  }

  lemma SameAccount(done: seq<Command>, p: Phase, q: Phase, queue: seq<Command>, sent: seq<Command>)
    requires Conserved(done, p, queue, sent) && Inflight(p) == Inflight(q)
    ensures Conserved(done, q, queue, sent)
  {}

  lemma LoadMoves(L: Layout, s: Sys)
    requires Shaped(L, s) && Held(L, s)
    ensures Held(L, Apply(L, s, LoadCommands))
  {
    IoStep(L, s, LoadCommands);
    PhaseStep(L, s, LoadCommands);
    DeviceKept(L, s, LoadCommands);
    LoadKeepsAccount(L, s);
    if s.phase.Commanding? && !s.phase.prepared {
      LoadHolds(L, s.live, s.phase, s.past.done, s.queue, s.io, s.device);
      SameAccount(s.past.done, s.phase, Commanding(s.phase.cmds, true, s.phase.written), s.queue, s.past.sent);
    }
    hide Apply, CommandsHold, Conserved, StoresFit, MirrorFits, Loaded, Agree;
  }

  lemma LoadKeepsAccount(L: Layout, s: Sys)
    ensures var t := Apply(L, s, LoadCommands);
            t.queue == s.queue && t.past == s.past
  {
    hide WithIo, Loaded;
  }

  lemma EndMoves(L: Layout, s: Sys, ok: bool, at: real)
    requires Shaped(L, s) && Held(L, s)
    ensures Held(L, Apply(L, s, EndCommands(ok, at)))
  {
    EndCommandsStep(L, s, ok, at);
    if CommandsOver(s.phase, ok) {
      if ok { DoneHolds(L, s.phase, s.past.done, s.queue, s.past.sent, s.io, s.device); }
      else { FailHolds(L, s.phase, s.past.done, s.queue, s.past.sent, s.io, s.device); }
    }
    hide Apply, CommandsHold, Conserved, StoresFit, MirrorFits, Agree, TagsOf;
  }

  lemma MovesHold(L: Layout, s: Sys, e: Event)
    requires Shaped(L, s) && Held(L, s) && MovesCommands(e)
    ensures Held(L, Apply(L, s, e))
  {
    hide Apply, CommandsHold, Conserved, Shaped;
    var done, sent := s.past.done, s.past.sent;
    match e {
      case Send(tag, v) =>
        SendStep(L, s, Command(tag, v));
        SendHolds(L, s.phase, done, s.queue, sent, s.io, s.device, Command(tag, v));
      case TakeCommands =>
        TakeCommandsStep(L, s);
        if s.phase.Idle? { TakeHolds(L, done, s.queue, sent, s.io, s.device); }
      case LoadCommands =>
        LoadMoves(L, s);
      case EndCommands(ok, at) =>
        EndMoves(L, s, ok, at);
    }
  }

  lemma {:induction false} StillHeld(L: Layout, s: Sys, es: seq<Event>)
    requires Shaped(L, s) && Held(L, s) && Undisturbed(L, s, es)
    ensures Held(L, Run(L, s, es))
  {
    if es != [] {
      var init, last := es[..|es| - 1], es[|es| - 1];
      UndisturbedInit(L, s, es);
      hide Apply, Shaped, Held, Undisturbed, Disturbs;
      StillHeld(L, s, init);
      ShapedRun(L, s, init);
      HeldStep(L, Run(L, s, init), last);
    }
  }

  lemma InflightKept(L: Layout, s: Sys, e: Event)
    requires !MovesCommands(e) || e.LoadCommands?
    ensures Inflight(Apply(L, s, e).phase) == Inflight(s.phase)
  {
    PhaseStep(L, s, e);
    hide Apply, AfterPoll, TagsOf;
  }

  /** A batch moves from the transaction to the delivered or back to the queue, in its place. */
  lemma EndAccount(done: seq<Command>, cmds: seq<Command>, queue: seq<Command>)
    ensures done + [] + (cmds + queue) == done + cmds + queue
    ensures done + cmds + [] + queue == done + cmds + queue
  {}

  lemma EndAccounts(L: Layout, s: Sys, ok: bool, at: real)
    requires Conserved(s.past.done, s.phase, s.queue, s.past.sent)
    ensures var t := Apply(L, s, EndCommands(ok, at));
            Conserved(t.past.done, t.phase, t.queue, t.past.sent)
  {
    EndCommandsStep(L, s, ok, at);
    hide Apply, TagsOf;
    if CommandsOver(s.phase, ok) { EndAccount(s.past.done, s.phase.cmds, s.queue); }
  }

  lemma SendAccounts(L: Layout, s: Sys, c: Command)
    requires Conserved(s.past.done, s.phase, s.queue, s.past.sent)
    ensures var t := Apply(L, s, Send(c.tag, c.value));
            Conserved(t.past.done, t.phase, t.queue, t.past.sent)
  {
    SendStep(L, s, c);
    hide Apply;
    assert s.past.done + Inflight(s.phase) + (s.queue + [c]) == s.past.done + Inflight(s.phase) + s.queue + [c];
  }

  lemma TakeAccounts(L: Layout, s: Sys)
    requires Conserved(s.past.done, s.phase, s.queue, s.past.sent)
    ensures var t := Apply(L, s, TakeCommands);
            Conserved(t.past.done, t.phase, t.queue, t.past.sent)
  {
    TakeCommandsStep(L, s);
    hide Apply;
  }

  lemma AccountStep(L: Layout, s: Sys, e: Event)
    requires Conserved(s.past.done, s.phase, s.queue, s.past.sent)
    ensures var t := Apply(L, s, e);
            Conserved(t.past.done, t.phase, t.queue, t.past.sent)
  {
    hide Apply, Conserved;
    match e
    case Send(tag, v) => SendAccounts(L, s, Command(tag, v));
    case TakeCommands => TakeAccounts(L, s);
    case EndCommands(ok, at) => EndAccounts(L, s, ok, at);
    case _ =>
      if e.LoadCommands? {
        LoadKeepsAccount(L, s);
      } else {
        QueueKept(L, s, e);
        AccountKept(L, s, e);
      }
      InflightKept(L, s, e);
      SameAccount(s.past.done, s.phase, Apply(L, s, e).phase, s.queue, s.past.sent);
  }

  /** On every interleaving, the stores shared or private: no command is lost, doubled in the
      account or overtaken, however often transactions fail. */
  lemma {:induction false} CommandsAccounted(L: Layout, s: Sys, es: seq<Event>)
    requires Initial(L, s)
    ensures var t := Run(L, s, es);
            t.past.done + Inflight(t.phase) + t.queue == t.past.sent
  {
    if es != [] {
      CommandsAccounted(L, s, es[..|es| - 1]);
      AccountStep(L, Run(L, s, es[..|es| - 1]), es[|es| - 1]);
    }
    hide Apply;
  }

  lemma LastOneStands(
    L: Layout, done: seq<Command>, p: Phase, queue: seq<Command>, sent: seq<Command>, io: Tags, device: Values, tag: string)
    requires Conserved(done, p, queue, sent) && CommandsHold(L, p, done, queue, io, device)
    requires tag in TagsOf(sent) && tag !in TagsOf(Inflight(p) + queue)
    ensures OnDevice(io, device, tag, LastValue(sent, tag).value)
  {
    var rest := Inflight(p) + queue;
    assert sent == done + rest;
    TagsAppend(Inflight(p), queue);
    TagsAppend(done, rest);
    LastValueAppend(done, rest, tag);
    assert tag in AtRest(done, p, queue);
    hide TagsOf, LastValue, OnDevice;
  }

  /** Once no command for a register is queued or in flight, it holds the last value sent to it. */
  ghost predicate Stands(s: Sys, tag: string) {
    tag in TagsOf(s.past.sent) && tag !in TagsOf(Inflight(s.phase) + s.queue) ==>
      OnDevice(s.io, s.device, tag, LastValue(s.past.sent, tag).value)
  }

  lemma HeldStands(L: Layout, s: Sys, tag: string)
    requires Held(L, s)
    ensures Stands(s, tag)
  {
    if tag in TagsOf(s.past.sent) && tag !in TagsOf(Inflight(s.phase) + s.queue) {
      LastOneStands(L, s.past.done, s.phase, s.queue, s.past.sent, s.io, s.device, tag);
    }
    hide TagsOf, OnDevice, Inflight, Conserved, CommandsHold, LastValue;
  }

  /** Once no command for a register is queued or in flight, it holds the last value sent to it,
      on every interleaving in which the foreground changes no register between its loading and
      its writing. */
  lemma LastCommandStands(L: Layout, s: Sys, es: seq<Event>, tag: string)
    requires Initial(L, s) && Undisturbed(L, s, es)
    ensures Stands(Run(L, s, es), tag)
  {
    HeldAtFirst(L, s);
    StillHeld(L, s, es);
    HeldStands(L, Run(L, s, es), tag);
    hide Run, Undisturbed, Initial, Held, Stands;
  }

  lemma HeldAtFirst(L: Layout, s: Sys)
    requires Initial(L, s)
    ensures Held(L, s)
  {}

  /** A command register is written by a transaction of sent commands only, in any layout: no
      flush, keep-alive or publication ever reaches it. */
  lemma OnlyCommandsWriteCommands(L: Layout, s: Sys, es: seq<Event>, e: Event, tag: string)
    requires Initial(L, s) && tag in L.commands
    ensures var t := Run(L, s, es);
            var u := Apply(L, t, e);
            || (e == Land(tag) && t.phase.Commanding? && tag in TagsOf(t.phase.cmds))
            || (tag !in t.device && tag !in u.device)
            || (tag in t.device && tag in u.device && u.device[tag] == t.device[tag])
  {
    ShapedRun(L, s, es);
    if e.Land? { LandTouchesOne(L, Run(L, s, es), e.tag, tag); } else { DeviceKept(L, Run(L, s, es), e); }
    hide Run, Apply, Shaped;
  }

  lemma LandTouchesOne(L: Layout, s: Sys, landed: string, tag: string)
    requires Shaped(L, s) && tag in L.commands
    ensures var u := Apply(L, s, Land(landed));
            || (landed == tag && s.phase.Commanding? && tag in TagsOf(s.phase.cmds))
            || (tag !in s.device && tag !in u.device)
            || (tag in s.device && tag in u.device && u.device[tag] == s.device[tag])
  {
    LandStep(L, s, landed);
    assert L.Apart();
    hide Apply, TagsOf, StoresFit, Landed;
  }
}
