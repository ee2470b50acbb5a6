/** Every interleaving of the scan cycle with the bus worker over one CachedDriver
    (src/pyems/drivers/cached.py). */
module Interleaving {
  import opened Num
  import opened Channels
  import opened CachedDriver

  /** shared says whether the worker's store and the live one hold the same channel objects.
      The driver means its store to be private, but both are built from the same channel list,
      so in the assembled system they are one. What holds of any layout is stated of any. aged names
      the devices that have an age tag of their own. */
  datatype Layout = Layout(
    writable: set<string>,
    commands: set<string>,
    channels: map<string, set<string>>,
    rewrite: real,
    shared: bool,
    aged: seq<string>)
  {
    function Measured(): map<string, set<string>> {
      map d | d in channels :: channels[d] - writable - commands
    }

    ghost predicate Apart() {
      && writable !! commands
      && forall d, e, n :: d in channels && e in channels && n in channels[d] && n in channels[e] ==> d == e
    }
  }

  /** What the worker is in the middle of. A device transaction lands its registers one by one
      and then succeeds, or fails with any of them landed. */
  datatype Phase =
    | Idle
    | Commanding(cmds: seq<Command>, prepared: bool, written: set<string>)
    | Flushing(pending: Values, loaded: bool, landed: set<string>)
    | Reading(polled: map<string, Values>, failed: set<string>)

  datatype Write = Write(tag: string, value: Ext)

  /** A command transaction that is over: how many commands had been delivered before it, its
      batch, the registers it landed, and whether it was reported delivered. */
  datatype Attempt = Attempt(first: nat, cmds: seq<Command>, landed: set<string>, ok: bool)

  /** What has happened so far: values commanded by the foreground, commands sent and
      delivered, each device's last fully good poll and its time, every register write and
      every command transaction. */
  datatype History = History(
    commanded: set<Write>,
    sent: seq<Command>,
    done: seq<Command>,
    good: map<string, Values>,
    stamps: map<string, real>,
    writes: seq<Write>,
    attempts: seq<Attempt>)

  /** The two stores, the device's registers as last written, the driver's fields, and what the
      foreground holds between critical sections: the live values it has read for the next
      publication, and its last copy of the measurement cache. */
  datatype Sys = Sys(
    live: Tags,
    io: Tags,
    device: Values,
    mirror: Mirror,
    queue: seq<Command>,
    meas: Values,
    lastOk: map<string, real>,
    lastWriteOk: real,
    gathered: Values,
    fetched: Values,
    phase: Phase,
    past: History)

  datatype Event =
    | LiveSet(name: string, value: Ext)
    | Gather(name: string)
    | Publish
    | Send(tag: string, value: Ext)
    | Fetch
    | CopyIn(name: string)
    | Observe(name: string, value: Ext)
    | TakeCommands
    | LoadCommands
    | EndCommands(ok: bool, at: real)
    | TakeDue(now: real)
    | LoadDue
    | EndFlush(ok: bool, at: real)
    | Land(tag: string)
    | StartRead
    | Poll(device: string, values: map<string, Option<Ext>>)
    | Abort
    | EndRead(at: real)

  function Overlay(under: Tags, over: Tags): (after: Tags)
    ensures after.Keys == under.Keys
  {
    map n | n in under :: if n in over then over[n] else under[n]
  }

  function WithIo(L: Layout, s: Sys, io: Tags): (t: Sys)
    ensures t == s.(io := io, live := t.live)
  {
    s.(io := io, live := if L.shared then Overlay(s.live, io) else s.live)
  }

  function WithLive(L: Layout, s: Sys, live: Tags): (t: Sys)
    ensures t == s.(live := live, io := t.io)
  {
    s.(live := live, io := if L.shared then Overlay(s.io, live) else s.io)
  }

  /** Good registers reach the worker's store even when others of the device failed. */
  function PolledIn(io: Tags, values: map<string, Option<Ext>>): (after: Tags)
    ensures SameChannels(io, after)
  {
    map n | n in io :: if n in values && values[n].Some? then io[n].(value := values[n].value) else io[n]
  }

  predicate AllGood(values: map<string, Option<Ext>>) {
    forall n :: n in values ==> values[n].Some?
  }

  function Goods(values: map<string, Option<Ext>>): Values {
    map n | n in values && values[n].Some? :: values[n].value
  }

  /** The registers a loaded transaction has yet to write: it writes each of its own once. */
  predicate Targets(p: Phase, tag: string) {
    match p
    case Commanding(cmds, prepared, written) => prepared && tag in TagsOf(cmds) && tag !in written
    case Flushing(pending, loaded, landed) => loaded && tag in pending && tag !in landed
    case _ => false
  }

  function Landed(p: Phase, tag: string): Phase {
    match p
    case Commanding(cmds, prepared, written) => Commanding(cmds, prepared, written + {tag})
    case Flushing(pending, loaded, landed) => Flushing(pending, loaded, landed + {tag})
    case _ => p
  }

  function Inflight(p: Phase): seq<Command> {
    if p.Commanding? then p.cmds else []
  }

  function AfterPoll(p: Phase, d: string, values: map<string, Option<Ext>>): (after: Phase)
    requires p.Reading?
    ensures after.Reading?
  {
    if AllGood(values) then Reading(p.polled[d := Goods(values)], p.failed) else Reading(p.polled, p.failed + {d})
  }

  /** The devices a finished poll read well, and when it ended. */
  function StampedAt(p: Phase, at: real): map<string, real>
    requires p.Reading?
  {
    map d | d in p.polled && d !in p.failed :: at
  }

  function Tried(past: History, p: Phase, ok: bool): (after: History)
    requires p.Commanding?
    ensures after == past.(attempts := after.attempts)
  {
    past.(attempts := past.attempts + [Attempt(|past.done|, p.cmds, p.written, ok)])
  }

  predicate CommandsOver(p: Phase, ok: bool) {
    p.Commanding? && p.prepared && (ok ==> TagsOf(p.cmds) <= p.written)
  }

  predicate FlushOver(p: Phase, ok: bool) {
    p.Flushing? && p.loaded && (ok ==> p.pending.Keys <= p.landed)
  }

  predicate ReadOver(L: Layout, p: Phase) {
    p.Reading? && p.polled.Keys + p.failed == L.channels.Keys
  }

  predicate Pollable(L: Layout, p: Phase, d: string, values: map<string, Option<Ext>>) {
    p.Reading? && d in L.channels && d !in p.polled && d !in p.failed && values.Keys == L.channels[d]
  }

  predicate OfForeground(e: Event) {
    e.LiveSet? || e.Gather? || e.Publish? || e.Send? || e.Fetch? || e.CopyIn? || e.Observe?
  }

  predicate OfCommands(e: Event) {
    e.TakeCommands? || e.LoadCommands? || e.EndCommands?
  }

  predicate OfFlush(e: Event) {
    e.TakeDue? || e.LoadDue? || e.EndFlush? || e.Land?
  }

  predicate OfPoll(e: Event) {
    e.StartRead? || e.Poll? || e.Abort? || e.EndRead?
  }

  /** A step that is not enabled changes nothing. */
  function Foreground(L: Layout, s: Sys, e: Event): (t: Sys)
    requires OfForeground(e)
    ensures t.device == s.device && t.meas == s.meas && t.lastOk == s.lastOk && t.phase == s.phase
    ensures t.lastWriteOk == s.lastWriteOk
    ensures t.past == s.past.(commanded := t.past.commanded, sent := t.past.sent)
    ensures !e.LiveSet? ==> t.past.commanded == s.past.commanded
    ensures !e.Send? ==> t.past.sent == s.past.sent && t.queue == s.queue
    ensures !e.Publish? ==> t.mirror == s.mirror
    ensures !e.Publish? && !e.Gather? ==> t.gathered == s.gathered
    ensures !e.Fetch? ==> t.fetched == s.fetched
    ensures !e.LiveSet? && !e.CopyIn? && !e.Observe? ==> t.live == s.live && t.io == s.io
  {
    match e
    case LiveSet(n, v) =>
      if Commandable(s.live, n) then
        WithLive(L, s, Commanded(s.live, n, v)).(
          past := s.past.(commanded := s.past.commanded + {Write(n, Clamped(s.live, n, v))}))
      else s
    case Gather(n) => if n in L.writable && n in s.live then s.(gathered := s.gathered[n := s.live[n].value]) else s
    case Publish => s.(mirror := Published(s.mirror, s.gathered), gathered := map[])
    case Send(tag, v) =>
      if tag in L.commands
      then s.(queue := s.queue + [Command(tag, v)], past := s.past.(sent := s.past.sent + [Command(tag, v)]))
      else s
    case Fetch => s.(fetched := s.meas)
    case CopyIn(n) => if n in s.fetched then WithLive(L, s, Observed(s.live, n, s.fetched[n])) else s
    case Observe(n, v) => if n in s.io then s else s.(live := Observed(s.live, n, v))
  }

  function CommandPass(L: Layout, s: Sys, e: Event): (t: Sys)
    requires OfCommands(e)
    ensures t.device == s.device && t.mirror == s.mirror && t.meas == s.meas && t.lastOk == s.lastOk
    ensures t.gathered == s.gathered && t.fetched == s.fetched
    ensures t.past == s.past.(done := t.past.done, attempts := t.past.attempts)
    ensures !e.EndCommands? ==> t.past == s.past && t.lastWriteOk == s.lastWriteOk
    ensures !e.LoadCommands? ==> t.live == s.live && t.io == s.io
    ensures e.LoadCommands? ==> t.queue == s.queue
  {
    match e
    case TakeCommands =>
      if s.phase.Idle? && s.queue != [] then s.(phase := Commanding(s.queue, false, {}), queue := []) else s
    case LoadCommands =>
      if s.phase.Commanding? && !s.phase.prepared
      then WithIo(L, s, Loaded(s.io, s.phase.cmds)).(phase := Commanding(s.phase.cmds, true, s.phase.written)) else s
    case EndCommands(ok, at) =>
      if !CommandsOver(s.phase, ok) then s
      else if ok then
        s.(phase := Idle, lastWriteOk := at, past := Tried(s.past, s.phase, ok).(done := s.past.done + s.phase.cmds))
      else s.(phase := Idle, queue := s.phase.cmds + s.queue, past := Tried(s.past, s.phase, ok))
  }

  /** Land is the write of one register, of a setpoint flush or of a command transaction. */
  function FlushPass(L: Layout, s: Sys, e: Event): (t: Sys)
    requires OfFlush(e)
    ensures t.queue == s.queue && t.meas == s.meas && t.lastOk == s.lastOk && t.gathered == s.gathered && t.fetched == s.fetched
    ensures t.past == s.past.(writes := t.past.writes)
    ensures !e.Land? ==> t.device == s.device && t.past == s.past
    ensures !e.LoadDue? ==> t.live == s.live && t.io == s.io
    ensures !e.EndFlush? ==> t.mirror == s.mirror && t.lastWriteOk == s.lastWriteOk
  {
    match e
    case TakeDue(now) =>
      var pending := Due(s.mirror, now, L.rewrite);
      if s.phase.Idle? && pending != map[] then s.(phase := Flushing(pending, false, {})) else s
    case LoadDue =>
      if s.phase.Flushing? && !s.phase.loaded
      then WithIo(L, s, LoadedAll(s.io, s.phase.pending)).(phase := Flushing(s.phase.pending, true, s.phase.landed)) else s
    case EndFlush(ok, at) =>
      if !FlushOver(s.phase, ok) then s
      else if ok then s.(phase := Idle, lastWriteOk := at, mirror := Settled(s.mirror, s.phase.pending, at))
      else s.(phase := Idle)
    case Land(tag) =>
      if Targets(s.phase, tag) && tag in s.io then
        s.(device := s.device[tag := s.io[tag].value],
           phase := Landed(s.phase, tag),
           past := s.past.(writes := s.past.writes + [Write(tag, s.io[tag].value)]))
      else s
  }

  function ReadPass(L: Layout, s: Sys, e: Event): (t: Sys)
    requires OfPoll(e)
    ensures t.device == s.device && t.mirror == s.mirror && t.queue == s.queue && t.lastWriteOk == s.lastWriteOk
    ensures t.gathered == s.gathered && t.fetched == s.fetched
    ensures t.past == s.past.(good := t.past.good, stamps := t.past.stamps)
    ensures !e.EndRead? ==> t.meas == s.meas && t.lastOk == s.lastOk && t.past == s.past
    ensures !e.Poll? ==> t.live == s.live && t.io == s.io
  {
    match e
    case StartRead => if s.phase.Idle? then s.(phase := Reading(map[], {})) else s
    case Poll(d, values) =>
      if Pollable(L, s.phase, d, values)
      then WithIo(L, s, PolledIn(s.io, values)).(phase := AfterPoll(s.phase, d, values)) else s
    case Abort => if s.phase.Reading? then s.(phase := Reading(s.phase.polled, L.channels.Keys)) else s
    case EndRead(at) =>
      if ReadOver(L, s.phase) then
        s.(phase := Idle,
           meas := Refreshed(s.meas, L.Measured(), s.phase.failed, s.io),
           lastOk := Stamped(s.lastOk, s.phase.failed, at),
           past := s.past.(good := s.past.good + (s.phase.polled - s.phase.failed),
                           stamps := s.past.stamps + StampedAt(s.phase, at)))
      else s
  }

  /** One step of either thread. */
  function Apply(L: Layout, s: Sys, e: Event): Sys {
    if OfForeground(e) then Foreground(L, s, e)
    else if OfCommands(e) then CommandPass(L, s, e)
    else if OfFlush(e) then FlushPass(L, s, e)
    else ReadPass(L, s, e)
  }

  function Run(L: Layout, s: Sys, es: seq<Event>): Sys {
    if es == [] then s else Apply(L, Run(L, s, es[..|es| - 1]), es[|es| - 1])
  }

  // --- what is where ------------------------------------------------------------------------------

  ghost predicate StoresFit(L: Layout, live: Tags, io: Tags) {
    && L.Apart()
    && (forall n :: n in L.writable || n in L.commands <==> Commandable(io, n))
    && (forall n :: n in L.writable ==> n in live)
    && forall d, n :: d in L.channels && n in L.channels[d] ==> n in io
  }

  ghost predicate MirrorFits(L: Layout, m: Mirror) {
    m.cache.Keys <= L.writable && m.dirty <= m.cache.Keys && (!m.ready ==> m.cache == map[])
  }

  ghost predicate PhaseFits(L: Layout, m: Mirror, p: Phase) {
    match p
    case Commanding(cmds, _, written) => TagsOf(cmds) <= L.commands && written <= TagsOf(cmds)
    case Flushing(pending, _, landed) => pending.Keys <= m.cache.Keys && landed <= pending.Keys
    case Reading(polled, failed) => polled.Keys <= L.channels.Keys && failed <= L.channels.Keys
    case Idle => true
  }

  /** Every channel of the worker's store is the live one. */
  ghost predicate Agree(live: Tags, io: Tags) {
    forall n :: n in io ==> n in live && live[n] == io[n]
  }

  /** Only measurements. */
  ghost predicate Unwritable(L: Layout, values: Values) {
    values.Keys !! L.writable && values.Keys !! L.commands
  }

  ghost predicate Shaped(L: Layout, s: Sys) {
    && StoresFit(L, s.live, s.io) && (L.shared ==> Agree(s.live, s.io))
    && MirrorFits(L, s.mirror) && PhaseFits(L, s.mirror, s.phase)
    && TagsOf(s.queue) <= L.commands && Unwritable(L, s.meas) && Unwritable(L, s.fetched) && s.gathered.Keys <= L.writable
  }

  lemma TagsAppend(a: seq<Command>, b: seq<Command>)
    ensures TagsOf(a + b) == TagsOf(a) + TagsOf(b)
  {
    forall i | 0 <= i < |b| ensures b[i].tag in TagsOf(a + b) {
      assert (a + b)[|a| + i] == b[i];
    }
    forall i | 0 <= i < |a| ensures a[i].tag in TagsOf(a + b) {
      assert (a + b)[i] == a[i];
    }
  }

  // --- single steps -------------------------------------------------------------------------------

  lemma PublishStep(L: Layout, s: Sys)
    ensures Apply(L, s, Publish) == s.(mirror := Published(s.mirror, s.gathered), gathered := map[])
  {}

  lemma GatherStep(L: Layout, s: Sys, n: string)
    ensures Apply(L, s, Gather(n)) ==
            if n in L.writable && n in s.live then s.(gathered := s.gathered[n := s.live[n].value]) else s
  {}

  lemma SendStep(L: Layout, s: Sys, c: Command)
    ensures Apply(L, s, Send(c.tag, c.value)) ==
            if c.tag in L.commands then s.(queue := s.queue + [c], past := s.past.(sent := s.past.sent + [c])) else s
  {}

  lemma TakeCommandsStep(L: Layout, s: Sys)
    ensures Apply(L, s, TakeCommands) ==
            if s.phase.Idle? && s.queue != [] then s.(phase := Commanding(s.queue, false, {}), queue := []) else s
  {}

  lemma EndCommandsStep(L: Layout, s: Sys, ok: bool, at: real)
    ensures Apply(L, s, EndCommands(ok, at)) ==
            if !CommandsOver(s.phase, ok) then s
            else
              var past := s.past.(attempts := s.past.attempts + [Attempt(|s.past.done|, s.phase.cmds, s.phase.written, ok)]);
              if ok then s.(phase := Idle, lastWriteOk := at, past := past.(done := past.done + s.phase.cmds))
              else s.(phase := Idle, queue := s.phase.cmds + s.queue, past := past)
  {
    hide TagsOf;
  }

  lemma EndFlushStep(L: Layout, s: Sys, ok: bool, at: real)
    ensures Apply(L, s, EndFlush(ok, at)) ==
            if !FlushOver(s.phase, ok) then s
            else if ok then s.(phase := Idle, lastWriteOk := at, mirror := Settled(s.mirror, s.phase.pending, at))
            else s.(phase := Idle)
  {
    hide Settled;
  }

  lemma LandStep(L: Layout, s: Sys, tag: string)
    ensures Apply(L, s, Land(tag)) ==
            if Targets(s.phase, tag) && tag in s.io then
              s.(device := s.device[tag := s.io[tag].value], phase := Landed(s.phase, tag),
                 past := s.past.(writes := s.past.writes + [Write(tag, s.io[tag].value)]))
            else s
  {
    hide Targets, Landed;
  }

  lemma EndReadStep(L: Layout, s: Sys, at: real)
    requires ReadOver(L, s.phase)
    ensures Apply(L, s, EndRead(at)) ==
            s.(phase := Idle,
               meas := Refreshed(s.meas, L.Measured(), s.phase.failed, s.io),
               lastOk := Stamped(s.lastOk, s.phase.failed, at),
               past := s.past.(good := s.past.good + (s.phase.polled - s.phase.failed),
                               stamps := s.past.stamps + StampedAt(s.phase, at)))
  {
    hide Refreshed, Stamped, StampedAt;
  }

  lemma NotOver(L: Layout, s: Sys, at: real)
    requires !ReadOver(L, s.phase)
    ensures Apply(L, s, EndRead(at)) == s
  {
    hide ReadOver;
  }

  /** The worker's store after one step. */
  function IoAfter(L: Layout, s: Sys, e: Event): Tags {
    match e
    case LiveSet(n, v) => if L.shared then Commanded(s.io, n, v) else s.io
    case CopyIn(n) => if L.shared && n in s.fetched then Observed(s.io, n, s.fetched[n]) else s.io
    case LoadCommands => if s.phase.Commanding? && !s.phase.prepared then Loaded(s.io, s.phase.cmds) else s.io
    case LoadDue => if s.phase.Flushing? && !s.phase.loaded then LoadedAll(s.io, s.phase.pending) else s.io
    case Poll(d, values) => if Pollable(L, s.phase, d, values) then PolledIn(s.io, values) else s.io
    case _ => s.io
  }

  /** The worker's transaction after one step. */
  function PhaseAfter(L: Layout, s: Sys, e: Event): Phase {
    match e
    case TakeCommands => if s.phase.Idle? && s.queue != [] then Commanding(s.queue, false, {}) else s.phase
    case LoadCommands =>
      if s.phase.Commanding? && !s.phase.prepared then Commanding(s.phase.cmds, true, s.phase.written) else s.phase
    case EndCommands(ok, _) => if CommandsOver(s.phase, ok) then Idle else s.phase
    case TakeDue(now) =>
      var pending := Due(s.mirror, now, L.rewrite);
      if s.phase.Idle? && pending != map[] then Flushing(pending, false, {}) else s.phase
    case LoadDue =>
      if s.phase.Flushing? && !s.phase.loaded then Flushing(s.phase.pending, true, s.phase.landed) else s.phase
    case EndFlush(ok, _) => if FlushOver(s.phase, ok) then Idle else s.phase
    case Land(tag) => if Targets(s.phase, tag) && tag in s.io then Landed(s.phase, tag) else s.phase
    case StartRead => if s.phase.Idle? then Reading(map[], {}) else s.phase
    case Poll(d, values) => if Pollable(L, s.phase, d, values) then AfterPoll(s.phase, d, values) else s.phase
    case Abort => if s.phase.Reading? then Reading(s.phase.polled, L.channels.Keys) else s.phase
    case EndRead(_) => if ReadOver(L, s.phase) then Idle else s.phase
    case _ => s.phase
  }

  lemma PhaseStep(L: Layout, s: Sys, e: Event)
    ensures Apply(L, s, e).phase == PhaseAfter(L, s, e)
  {
    hide Foreground, Landed, Targets, Pollable, TagsOf, Tried, CommandsOver, FlushOver, WithIo, AfterPoll, ReadOver, Settled;
  }

  /** The steps that history tells of. */
  predicate Records(e: Event) {
    e.LiveSet? || e.Send? || e.EndCommands? || e.Land? || e.EndRead?
  }

  lemma PastKept(L: Layout, s: Sys, e: Event)
    requires !Records(e)
    ensures Apply(L, s, e).past == s.past
  {
    hide Foreground, CommandPass, FlushPass, ReadPass;
  }

  lemma ReadingsKept(L: Layout, s: Sys, e: Event)
    requires !e.EndRead?
    ensures Apply(L, s, e).meas == s.meas && Apply(L, s, e).lastOk == s.lastOk
  {
    hide Foreground, CommandPass, FlushPass, ReadPass;
  }

  lemma LiveSteps(live: Tags, io: Tags, n: string, v: Ext)
    requires Agree(live, io)
    ensures Overlay(io, Commanded(live, n, v)) == Commanded(io, n, v) && Agree(Commanded(live, n, v), Commanded(io, n, v))
    ensures Overlay(io, Observed(live, n, v)) == Observed(io, n, v) && Agree(Observed(live, n, v), Observed(io, n, v))
    ensures !Commandable(live, n) ==> Commanded(io, n, v) == io
    ensures n !in io ==> Agree(Observed(live, n, v), io)
  {}

  lemma WorkerSteps(live: Tags, io: Tags, after: Tags)
    requires Agree(live, io) && after.Keys == io.Keys
    ensures Agree(Overlay(live, after), after)
  {}

  predicate Touches(e: Event) {
    e.LiveSet? || e.CopyIn? || e.Observe? || e.LoadCommands? || e.LoadDue? || e.Poll?
  }

  lemma StoresKept(L: Layout, s: Sys, e: Event)
    requires !Touches(e)
    ensures Apply(L, s, e).io == s.io && Apply(L, s, e).live == s.live
  {
    hide Foreground, CommandPass, FlushPass, ReadPass;
  }

  lemma SetStores(L: Layout, s: Sys, live: Tags, io: Tags)
    requires live.Keys == s.live.Keys && if L.shared then Overlay(s.io, live) == io && Agree(live, io) else io == s.io
    ensures var t := WithLive(L, s, live);
            t.io == io && t.live == live && (L.shared ==> Agree(live, io))
  {
    hide Agree, Overlay;
  }

  lemma SameKeys(tags: Tags, n: string, v: Ext)
    ensures Commanded(tags, n, v).Keys == Observed(tags, n, v).Keys == tags.Keys
    ensures !Commandable(tags, n) ==> Commanded(tags, n, v) == tags
  {}

  lemma SetRuns(L: Layout, s: Sys, n: string, v: Ext)
    ensures var t, u := Apply(L, s, LiveSet(n, v)), WithLive(L, s, Commanded(s.live, n, v));
            if Commandable(s.live, n) then t.live == u.live && t.io == u.io else t.live == s.live && t.io == s.io
  {
    hide WithLive, Commanded, Clamped, Commandable;
  }

  lemma SetStep(L: Layout, s: Sys, n: string, v: Ext)
    requires L.shared ==> Agree(s.live, s.io)
    ensures var t := Apply(L, s, LiveSet(n, v));
            t.io == IoAfter(L, s, LiveSet(n, v)) && t.live == Commanded(s.live, n, v) && (L.shared ==> Agree(t.live, t.io))
  {
    hide Apply, Agree, Overlay, WithLive, Commanded, Observed, Commandable;
    SetRuns(L, s, n, v);
    SameKeys(s.live, n, v);
    if L.shared { LiveSteps(s.live, s.io, n, v); }
    if Commandable(s.live, n) { SetStores(L, s, Commanded(s.live, n, v), IoAfter(L, s, LiveSet(n, v))); }
  }

  lemma CopyStep(L: Layout, s: Sys, n: string)
    requires L.shared ==> Agree(s.live, s.io)
    ensures var t := Apply(L, s, CopyIn(n));
            && t.io == IoAfter(L, s, CopyIn(n)) && (L.shared ==> Agree(t.live, t.io))
            && t.live == if n in s.fetched then Observed(s.live, n, s.fetched[n]) else s.live
  {
    hide Agree, Overlay, WithLive, Commanded, Observed;
    if n in s.fetched {
      SameKeys(s.live, n, s.fetched[n]);
      if L.shared { LiveSteps(s.live, s.io, n, s.fetched[n]); }
      SetStores(L, s, Observed(s.live, n, s.fetched[n]), IoAfter(L, s, CopyIn(n)));
    }
  }

  lemma ObserveStep(L: Layout, s: Sys, n: string, v: Ext)
    requires L.shared ==> Agree(s.live, s.io)
    ensures var t := Apply(L, s, Observe(n, v));
            t.io == s.io && t.live == (if n in s.io then s.live else Observed(s.live, n, v)) && (L.shared ==> Agree(t.live, t.io))
  {
    hide Agree, Overlay, Commanded, Observed;
    if L.shared { LiveSteps(s.live, s.io, n, v); }
  }

  lemma LoadedStores(L: Layout, s: Sys, io: Tags)
    requires (L.shared ==> Agree(s.live, s.io)) && io.Keys == s.io.Keys
    ensures var t := WithIo(L, s, io);
            t.io == io && t.live.Keys == s.live.Keys && (L.shared ==> Agree(t.live, io))
  {
    if L.shared { WorkerSteps(s.live, s.io, io); }
    hide Agree, Overlay;
  }

  lemma LoadCommandsStep(L: Layout, s: Sys)
    ensures var t := Apply(L, s, LoadCommands);
            if s.phase.Commanding? && !s.phase.prepared
            then t.io == Loaded(s.io, s.phase.cmds) && t.live == WithIo(L, s, t.io).live else t.io == s.io && t.live == s.live
  {
    hide Loaded, WithIo;
  }

  lemma LoadDueStep(L: Layout, s: Sys)
    ensures var t := Apply(L, s, LoadDue);
            if s.phase.Flushing? && !s.phase.loaded
            then t.io == LoadedAll(s.io, s.phase.pending) && t.live == WithIo(L, s, t.io).live else t.io == s.io && t.live == s.live
  {
    hide LoadedAll, WithIo;
  }

  lemma StartReadStep(L: Layout, s: Sys)
    ensures Apply(L, s, StartRead) == if s.phase.Idle? then s.(phase := Reading(map[], {})) else s
  {}

  lemma PollStep(L: Layout, s: Sys, d: string, values: map<string, Option<Ext>>)
    ensures var t := Apply(L, s, Poll(d, values));
            if Pollable(L, s.phase, d, values)
            then t.io == PolledIn(s.io, values) && t.live == WithIo(L, s, t.io).live else t.io == s.io && t.live == s.live
  {
    hide PolledIn, WithIo, AfterPoll, Pollable;
  }

  /** The two stores after one step: they stay one if they were. */
  lemma IoStep(L: Layout, s: Sys, e: Event)
    requires L.shared ==> Agree(s.live, s.io)
    ensures var t := Apply(L, s, e);
            t.io == IoAfter(L, s, e) && t.live.Keys == s.live.Keys && (L.shared ==> Agree(t.live, t.io))
  {
    hide Apply, Agree, WithIo, Loaded, LoadedAll, PolledIn, Pollable, Commanded, Observed;
    match e
    case LiveSet(n, v) =>
      SameKeys(s.live, n, v);
      SetStep(L, s, n, v);
    case CopyIn(n) =>
      if n in s.fetched { SameKeys(s.live, n, s.fetched[n]); }
      CopyStep(L, s, n);
    case Observe(n, v) =>
      SameKeys(s.live, n, v);
      ObserveStep(L, s, n, v);
    case LoadCommands =>
      LoadCommandsStep(L, s);
      LoadedStores(L, s, IoAfter(L, s, e));
    case LoadDue =>
      LoadDueStep(L, s);
      LoadedStores(L, s, IoAfter(L, s, e));
    case Poll(d, values) =>
      PollStep(L, s, d, values);
      LoadedStores(L, s, IoAfter(L, s, e));
    case _ => StoresKept(L, s, e);
  }

  /** A store changes only in its values. */
  lemma IoStays(L: Layout, s: Sys, e: Event)
    ensures SameChannels(s.io, IoAfter(L, s, e))
  {
    hide Loaded, LoadedAll, PolledIn;
  }

  lemma StoresStay(L: Layout, live: Tags, io: Tags, live': Tags, io': Tags)
    requires StoresFit(L, live, io) && SameChannels(io, io') && live'.Keys == live.Keys
    ensures StoresFit(L, live', io')
  {}

  lemma MirrorStays(L: Layout, m: Mirror, p: Phase, values: Values, at: real)
    requires MirrorFits(L, m) && PhaseFits(L, m, p) && values.Keys <= L.writable
    ensures MirrorFits(L, Published(m, values)) && PhaseFits(L, Published(m, values), p)
    ensures p.Flushing? ==> MirrorFits(L, Settled(m, p.pending, at))
  {}

  lemma PhaseStays(L: Layout, m: Mirror, p: Phase, e: Event)
    requires PhaseFits(L, m, p)
    ensures e.Land? && Targets(p, e.tag) ==> PhaseFits(L, m, Landed(p, e.tag))
    ensures e.Poll? && Pollable(L, p, e.device, e.values) ==> PhaseFits(L, m, AfterPoll(p, e.device, e.values))
    ensures e.TakeDue? ==> PhaseFits(L, m, Flushing(Due(m, e.now, L.rewrite), false, {}))
  {}

  /** No publication, and no flush ends. */
  predicate Quiescent(e: Event) {
    !e.Publish? && !e.EndFlush?
  }

  lemma MirrorKept(L: Layout, s: Sys, e: Event)
    requires Quiescent(e)
    ensures Apply(L, s, e).mirror == s.mirror
  {
    hide Foreground, CommandPass, FlushPass, ReadPass;
  }

  lemma CacheKept(L: Layout, s: Sys, e: Event)
    requires !e.Publish?
    ensures Apply(L, s, e).mirror.cache == s.mirror.cache
  {
    if e.EndFlush? { EndFlushStep(L, s, e.ok, e.at); } else { MirrorKept(L, s, e); }
    hide Apply;
  }

  lemma MirrorShaped(L: Layout, s: Sys, e: Event)
    requires MirrorFits(L, s.mirror) && PhaseFits(L, s.mirror, s.phase) && s.gathered.Keys <= L.writable
    ensures MirrorFits(L, Apply(L, s, e).mirror)
  {
    MirrorStays(L, s.mirror, s.phase, s.gathered, if e.EndFlush? then e.at else 0.0);
    hide MirrorFits, PhaseFits, Published, Settled;
    match e
    case Publish =>
    case EndFlush(_, _) =>
    case _ =>
      MirrorKept(L, s, e);
      hide Apply;
  }

  lemma PhaseAfterFits(L: Layout, s: Sys, e: Event)
    requires MirrorFits(L, s.mirror) && PhaseFits(L, s.mirror, s.phase) && TagsOf(s.queue) <= L.commands
    ensures PhaseFits(L, s.mirror, PhaseAfter(L, s, e))
  {
    PhaseStays(L, s.mirror, s.phase, e);
    hide MirrorFits, TagsOf, Due, Targets, Landed, AfterPoll, Pollable;
  }

  lemma MirrorGrows(L: Layout, s: Sys, e: Event)
    ensures s.mirror.cache.Keys <= Apply(L, s, e).mirror.cache.Keys
  {
    hide Foreground, CommandPass, FlushPass, ReadPass;
    match e
    case Publish =>
      PublishStep(L, s);
    case EndFlush(ok, at) =>
      EndFlushStep(L, s, ok, at);
    case _ =>
      MirrorKept(L, s, e);
      hide Apply;
  }

  lemma PhaseShaped(L: Layout, s: Sys, e: Event)
    requires MirrorFits(L, s.mirror) && PhaseFits(L, s.mirror, s.phase) && TagsOf(s.queue) <= L.commands
    ensures PhaseFits(L, Apply(L, s, e).mirror, Apply(L, s, e).phase)
  {
    MirrorGrows(L, s, e);
    PhaseStep(L, s, e);
    PhaseAfterFits(L, s, e);
    hide Apply, MirrorFits, TagsOf, PhaseAfter;
  }

  lemma QueueShaped(L: Layout, s: Sys, e: Event)
    requires TagsOf(s.queue) <= L.commands && PhaseFits(L, s.mirror, s.phase)
    ensures TagsOf(Apply(L, s, e).queue) <= L.commands
  {
    if s.phase.Commanding? { TagsAppend(s.phase.cmds, s.queue); }
    if e.Send? { TagsAppend(s.queue, [Command(e.tag, e.value)]); OneTag(Command(e.tag, e.value)); }
    assert TagsOf([]) == {};
    hide FlushPass, ReadPass, WithIo, WithLive, TagsOf, Published, Tried, Observed, Commanded, Clamped, Loaded;
  }

  lemma MeasShaped(L: Layout, s: Sys, e: Event)
    ensures Apply(L, s, e).meas.Keys == s.meas.Keys
  {
    hide Apply;
    if !e.EndRead? {
      ReadingsKept(L, s, e);
    } else if ReadOver(L, s.phase) {
      EndReadStep(L, s, e.at);
    } else {
      NotOver(L, s, e.at);
    }
  }

  lemma GatheredKept(L: Layout, s: Sys, e: Event)
    requires !e.Gather? && !e.Publish?
    ensures Apply(L, s, e).gathered == s.gathered
  {
    hide Foreground, CommandPass, FlushPass, ReadPass;
    if !OfForeground(e) { hide *; }
  }

  lemma GatheredShaped(L: Layout, s: Sys, e: Event)
    requires s.gathered.Keys <= L.writable
    ensures Apply(L, s, e).gathered.Keys <= L.writable
  {
    hide CommandPass, FlushPass, ReadPass;
    if !e.Gather? && !e.Publish? { hide Foreground; }
  }

  lemma FetchedKept(L: Layout, s: Sys, e: Event)
    requires !e.Fetch?
    ensures Apply(L, s, e).fetched == s.fetched
  {
    hide Foreground, CommandPass, FlushPass, ReadPass;
  }

  lemma FetchStep(L: Layout, s: Sys)
    ensures Apply(L, s, Fetch) == s.(fetched := s.meas)
  {}

  lemma FetchedShaped(L: Layout, s: Sys, e: Event)
    requires Unwritable(L, s.meas) && Unwritable(L, s.fetched)
    ensures Unwritable(L, Apply(L, s, e).fetched)
  {
    hide Apply, Unwritable;
    if e.Fetch? { FetchStep(L, s); } else { FetchedKept(L, s, e); }
  }

  lemma ShapedStep(L: Layout, s: Sys, e: Event)
    requires Shaped(L, s)
    ensures Shaped(L, Apply(L, s, e))
  {
    IoStep(L, s, e);
    IoStays(L, s, e);
    StoresStay(L, s.live, s.io, Apply(L, s, e).live, Apply(L, s, e).io);
    MirrorShaped(L, s, e);
    PhaseShaped(L, s, e);
    QueueShaped(L, s, e);
    MeasShaped(L, s, e);
    GatheredShaped(L, s, e);
    FetchedShaped(L, s, e);
    hide Apply, StoresFit, MirrorFits, PhaseFits, TagsOf, Agree;
  }

  lemma {:induction false} ShapedRun(L: Layout, s: Sys, es: seq<Event>)
    requires Shaped(L, s)
    ensures Shaped(L, Run(L, s, es))
  {
    if es != [] {
      hide Shaped, Apply;
      ShapedRun(L, s, es[..|es| - 1]);
      ShapedStep(L, Run(L, s, es[..|es| - 1]), es[|es| - 1]);
    }
  }

  /** Loading commands leaves setpoints alone. */
  lemma LiveLoaded(L: Layout, s: Sys, n: string)
    requires Shaped(L, s) && n in L.writable
    ensures var t := Apply(L, s, LoadCommands);
            n in s.live && n in t.live && t.live[n].value == s.live[n].value
  {
    assert Commandable(s.io, n);
    LoadCommandsStep(L, s);
    hide Apply, Loaded, TagsOf, MirrorFits;
    if s.phase.Commanding? && n !in TagsOf(s.phase.cmds) { LoadedHoldsLast(s.io, s.phase.cmds, n); }
  }

  // --- what the foreground can spoil in a shared store ------------------------------------------

  /** The foreground changes a register that the transaction under way has loaded and not yet
      written. In a private store it cannot. */
  predicate Disturbs(L: Layout, s: Sys, e: Event) {
    && L.shared && e.LiveSet? && Targets(s.phase, e.name)
    && e.name in s.io && Clamped(s.io, e.name, e.value) != s.io[e.name].value
  }

  ghost predicate Undisturbed(L: Layout, s: Sys, es: seq<Event>) {
    forall i :: 0 <= i < |es| ==> !Disturbs(L, Run(L, s, es[..i]), es[i])
  }

  lemma PrivateUndisturbed(L: Layout, s: Sys, es: seq<Event>)
    requires !L.shared
    ensures Undisturbed(L, s, es)
  {}

  lemma UndisturbedInit(L: Layout, s: Sys, es: seq<Event>)
    requires es != [] && Undisturbed(L, s, es)
    ensures var init := es[..|es| - 1];
            Undisturbed(L, s, init) && !Disturbs(L, Run(L, s, init), es[|es| - 1])
  {
    var init := es[..|es| - 1];
    forall i | 0 <= i < |init| ensures !Disturbs(L, Run(L, s, init[..i]), init[i]) {
      assert init[..i] == es[..i] && init[i] == es[i];
    }
  }

  /** What is loaded stays loaded, unless disturbed, until it is written. */
  lemma TargetsKept(L: Layout, s: Sys, e: Event)
    requires Shaped(L, s) && !Disturbs(L, s, e)
    ensures forall n :: Targets(s.phase, n) ==> n in s.io && n in IoAfter(L, s, e) && IoAfter(L, s, e)[n].value == s.io[n].value
  {
    assert forall n :: Targets(s.phase, n) ==> n in L.writable || n in L.commands;
    hide Loaded, LoadedAll, PolledIn, TagsOf;
  }

  // --- building a run ------------------------------------------------------------------------------

  lemma RunStep(L: Layout, s: Sys, es: seq<Event>, e: Event)
    ensures Run(L, s, es + [e]) == Apply(L, Run(L, s, es), e)
  {
    assert (es + [e])[..|es + [e]| - 1] == es;
  }

  lemma {:induction false} RunAppend(L: Layout, s: Sys, es: seq<Event>, more: seq<Event>)
    ensures Run(L, s, es + more) == Run(L, Run(L, s, es), more)
  {
    hide Apply;
    if more == [] {
      assert es + more == es;
    } else {
      var init, last := more[..|more| - 1], more[|more| - 1];
      RunAppend(L, s, es, init);
      assert es + more == es + init + [last];
      RunStep(L, s, es + init, last);
    }
  }

  lemma RunFrom(L: Layout, s: Sys, e: Event, more: seq<Event>)
    ensures Run(L, s, [e] + more) == Run(L, Apply(L, s, e), more)
  {
    assert [] + [e] == [e] && Run(L, s, []) == s;
    RunStep(L, s, [], e);
    RunAppend(L, s, [e], more);
    hide Apply;
  }

  lemma Then(L: Layout, s: Sys, es: seq<Event>, e: Event) returns (more: seq<Event>, t: Sys)
    ensures more == es + [e] && t == Run(L, s, more) && t == Apply(L, Run(L, s, es), e)
    ensures Undisturbed(L, s, es) && !Disturbs(L, Run(L, s, es), e) ==> Undisturbed(L, s, more)
  {
    RunStep(L, s, es, e);
    more, t := es + [e], Run(L, s, es + [e]);
    if Undisturbed(L, s, es) && !Disturbs(L, Run(L, s, es), e) {
      forall i | 0 <= i < |more| ensures !Disturbs(L, Run(L, s, more[..i]), more[i]) {
        if i < |es| { assert more[..i] == es[..i] && more[i] == es[i]; } else { assert more[..i] == es; }
      }
    }
  }

  lemma RunOfFive(L: Layout, s: Sys, a: Event, b: Event, c: Event, d: Event, e: Event)
    ensures Run(L, s, [a, b, c, d, e]) == Apply(L, Apply(L, Apply(L, Apply(L, Apply(L, s, a), b), c), d), e)
  {
    assert Run(L, s, []) == s && [] + [a] == [a] && [a] + [b] == [a, b] && [a, b] + [c] == [a, b, c];
    assert [a, b, c] + [d] == [a, b, c, d] && [a, b, c, d] + [e] == [a, b, c, d, e];
    RunStep(L, s, [], a);
    RunStep(L, s, [a], b);
    RunStep(L, s, [a, b], c);
    RunStep(L, s, [a, b, c], d);
    RunStep(L, s, [a, b, c, d], e);
    hide Run, Apply;
  }

  lemma SameTwice(a: Tags, b: Tags, c: Tags)
    requires SameChannels(a, b)
    ensures SameChannels(b, c) ==> SameChannels(a, c)
  {}

  lemma SameClamp(io: Tags, io': Tags, n: string, v: Ext)
    requires SameChannels(io, io') && n in io
    ensures n in io' && Clamped(io', n, v) == Clamped(io, n, v)
  {}

  lemma OneTag(c: Command)
    ensures TagsOf([c]) == {c.tag} && LastValue([c], c.tag) == Some(c.value)
  {
    assert [c][0].tag in TagsOf([c]);
  }
}
