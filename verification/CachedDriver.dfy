/** The I/O cache between the scan cycle and the bus worker (src/pyems/drivers/cached.py).
    Each method of the class is one critical section, or one stretch of the worker between
    two; between any two of them the other thread may run. */
module CachedDriver {
  import opened Num
  import opened Channels

  /** A setpoint or measurement by name. */
  type Values = map<string, Ext>

  datatype Command = Command(tag: string, value: Ext)

  // --- the setpoint mirror --------------------------------------------------------------

  datatype Mirror = Mirror(cache: Values, dirty: set<string>, flushedAt: map<string, real>, ready: bool)

  /** Only values that differ from the cached ones become dirty. */
  function Published(m: Mirror, values: Values): Mirror {
    Mirror(m.cache + values,
           m.dirty + (set n | n in values && !(n in m.cache && m.cache[n] == values[n])),
           m.flushedAt, true)
  }

  predicate IsDue(m: Mirror, n: string, now: real, rewrite: real) {
    n in m.dirty || n !in m.flushedAt || now - m.flushedAt[n] >= rewrite
  }

  /** What a flush starting now takes along: nothing before the first publication. */
  function Due(m: Mirror, now: real, rewrite: real): Values {
    map n | n in m.cache && m.ready && IsDue(m, n, now, rewrite) :: m.cache[n]
  }

  /** After a delivered flush: clean, unless updated meanwhile. */
  function Settled(m: Mirror, pending: Values, flushed: real): Mirror {
    Mirror(m.cache,
           set n | n in m.dirty && !(n in pending && n in m.cache && m.cache[n] == pending[n]),
           map n | n in m.flushedAt.Keys + pending.Keys :: if n in pending then flushed else m.flushedAt[n],
           m.ready)
  }

  // --- commands --------------------------------------------------------------------------

  function TagsOf(commands: seq<Command>): set<string> {
    set i | 0 <= i < |commands| :: commands[i].tag
  }

  function LastValue(commands: seq<Command>, tag: string): (v: Option<Ext>)
    ensures v.Some? <==> tag in TagsOf(commands)
  {
    if commands == [] then None
    else
      var last := commands[|commands| - 1];
      assert commands == commands[..|commands| - 1] + [last];
      if last.tag == tag then Some(last.value) else LastValue(commands[..|commands| - 1], tag)
  }

  lemma {:induction false} LastValueAppend(a: seq<Command>, b: seq<Command>, tag: string)
    ensures LastValue(a + b, tag) == if LastValue(b, tag).Some? then LastValue(b, tag) else LastValue(a, tag)
  {
    if b == [] {
      assert a + b == a;
    } else {
      assert (a + b)[..|a + b| - 1] == a + b[..|b| - 1];
      LastValueAppend(a, b[..|b| - 1], tag);
    }
  }

  // --- loading the store the device writes from ------------------------------------------------

  /** Several commanded values; two for one tag coalesce to the last. */
  function Loaded(io: Tags, commands: seq<Command>): (after: Tags)
    ensures SameChannels(io, after)
  {
    if commands == [] then io
    else
      var last := commands[|commands| - 1];
      Commanded(Loaded(io, commands[..|commands| - 1]), last.tag, last.value)
  }

  function LoadedAll(io: Tags, values: Values): (after: Tags)
    ensures SameChannels(io, after)
  {
    map n | n in io :: if n in values && io[n].writable then io[n].(value := ClampE(values[n], io[n].min, io[n].max)) else io[n]
  }

  function Clamped(io: Tags, n: string, v: Ext): Ext
    requires n in io
  {
    ClampE(v, io[n].min, io[n].max)
  }

  lemma {:induction false} LoadedHoldsLast(io: Tags, commands: seq<Command>, tag: string)
    requires Commandable(io, tag)
    ensures Loaded(io, commands)[tag].value ==
            if LastValue(commands, tag).Some? then Clamped(io, tag, LastValue(commands, tag).value) else io[tag].value
  {
    if commands != [] { LoadedHoldsLast(io, commands[..|commands| - 1], tag); }
  }

  // --- freshness ------------------------------------------------------------------------------

  /** Zero is the stamp of "never". */
  function AgeOf(last: real, now: real): Ext {
    if last == 0.0 then PosInf else Fin(now - last)
  }

  function CopiedIn(live: Tags, meas: Values): (after: Tags)
    ensures after.Keys == live.Keys
  {
    map n | n in live :: if n in meas then live[n].(value := meas[n]) else live[n]
  }

  function Shown(tags: Tags, tag: string, age: Ext): Tags {
    if tag in tags then tags[tag := tags[tag].(value := age)] else tags
  }

  /** The tag of one device's age (comms_age_channel of src/pyems/system_tags.py). */
  function AgeTag(device: string): string {
    "sys." + device + ".comms_age_s"
  }

  lemma AgeTagInjective(d: string, e: string)
    ensures AgeTag(d) == AgeTag(e) ==> d == e
  {
    if AgeTag(d) == AgeTag(e) {
      assert AgeTag(d)[4..|AgeTag(d)| - 12] == d && AgeTag(e)[4..|AgeTag(e)| - 12] == e;
    }
  }

  /** The ages of the devices ds, each in its own tag; a device without a tag shows none. */
  ghost predicate DevicesShown(before: Tags, after: Tags, ds: set<string>, lastOk: map<string, real>, now: real)
    requires ds <= lastOk.Keys
  {
    && before.Keys == after.Keys
    && (forall d :: d in ds && AgeTag(d) in before ==> after[AgeTag(d)] == before[AgeTag(d)].(value := AgeOf(lastOk[d], now)))
    && forall n :: n in before && (forall d :: d in ds ==> n != AgeTag(d)) ==> after[n] == before[n]
  }

  class CachedDriver {
    const writable: set<string>
    const commands: set<string>
    /** The measured channels of each device; a single-age driver has one device with them all. */
    const measured: map<string, set<string>>
    const rewrite: real
    /** Whether the devices have age tags of their own. */
    const perDevice: bool
    const io: SystemState

    var cache: Values
    var dirty: set<string>
    var flushedAt: map<string, real>
    var ready: bool
    var queue: seq<Command>
    var meas: Values
    var lastOk: map<string, real>
    var lastWriteOk: real

    constructor (writable: set<string>, commands: set<string>, measured: map<string, set<string>>, rewrite: real,
                 perDevice: bool, io: SystemState)
      ensures this.writable == writable && this.commands == commands && this.measured == measured
      ensures this.rewrite == rewrite && this.perDevice == perDevice && this.io == io
      ensures View() == Mirror(map[], {}, map[], false) && queue == []
      ensures meas == (map d, n | d in measured && n in measured[d] :: n := Fin(0.0))
      ensures lastOk == (map d | d in measured :: 0.0) && lastWriteOk == 0.0
    {
      this.writable, this.commands, this.measured, this.rewrite := writable, commands, measured, rewrite;
      this.perDevice, this.io := perDevice, io;
      cache, dirty, flushedAt, ready, queue := map[], {}, map[], false, [];
      meas := map d, n | d in measured && n in measured[d] :: n := Fin(0.0);
      lastOk, lastWriteOk := map d | d in measured :: 0.0, 0.0;
    }

    function View(): Mirror
      reads this
    {
      Mirror(cache, dirty, flushedAt, ready)
    }

    // foreground

    method WriteSetpoints(state: SystemState, channels: Option<set<string>>)
      requires forall n :: n in writable ==> state.Has(n)
      modifies `cache, `dirty, `ready
      ensures View() == Published(old(View()), map n | n in writable && (channels.Some? ==> n in channels.value) :: state.Get(n))
    {
      var names := set n | n in writable && (channels.Some? ==> n in channels.value);
      var todo := names;
      while todo != {}
        invariant todo <= names && flushedAt == old(flushedAt)
        invariant cache.Keys == old(cache).Keys + (names - todo)
        invariant forall n :: n in cache ==> cache[n] == if n in names - todo then state.Get(n) else old(cache)[n]
        invariant forall n :: n in dirty <==>
                    n in old(dirty) || (n in names - todo && !(n in old(cache) && old(cache)[n] == state.Get(n)))
      {
        var n :| n in todo;
        var value := state.Get(n);
        if !(n in cache && cache[n] == value) {
          cache := cache[n := value];
          dirty := dirty + {n};
        }
        todo := todo - {n};
      }
      ready := true;
    }

    /** False stands for the ValueError against a tag that is not a command. */
    method SendCommand(tag: string, value: Ext) returns (ok: bool)
      modifies `queue
      ensures ok == (tag in commands)
      ensures queue == if ok then old(queue) + [Command(tag, value)] else old(queue)
    {
      ok := tag in commands;
      if ok { queue := queue + [Command(tag, value)]; }
    }

    // worker: commands

    method TakeCommands() returns (pending: seq<Command>)
      modifies `queue
      ensures pending == old(queue) && queue == []
    {
      pending, queue := queue, [];
    }

    method LoadCommands(pending: seq<Command>)
      modifies io
      ensures io.tags == Loaded(old(io.tags), pending)
    {
      for i := 0 to |pending|
        invariant io.tags == Loaded(old(io.tags), pending[..i])
      {
        assert pending[..i + 1][..i] == pending[..i];
        var _ := io.Set(pending[i].tag, pending[i].value);
      }
      assert pending[..|pending|] == pending;
    }

    method CommandsDone(pending: seq<Command>, ok: bool, now: real)
      modifies `queue, `lastWriteOk
      ensures queue == if ok then old(queue) else pending + old(queue)
      ensures lastWriteOk == if ok then now else old(lastWriteOk)
    {
      if ok { lastWriteOk := now; } else { queue := pending + queue; }
    }

    // worker: setpoints

    method TakeDue(now: real) returns (pending: Values)
      ensures pending == Due(View(), now, rewrite)
    {
      if !ready { return map[]; }
      pending := map n | n in cache && (n in dirty || n !in flushedAt || now - flushedAt[n] >= rewrite) :: cache[n];
    }

    method LoadSetpoints(pending: Values)
      requires forall n :: n in pending ==> Commandable(io.tags, n)
      modifies io
      ensures io.tags == LoadedAll(old(io.tags), pending)
    {
      var todo := pending.Keys;
      while todo != {}
        invariant todo <= pending.Keys && io.tags.Keys == old(io.tags).Keys
        invariant forall n :: n in io.tags ==>
                    io.tags[n] == if n in todo then old(io.tags)[n] else LoadedAll(old(io.tags), pending)[n]
      {
        var n :| n in todo;
        var _ := io.Set(n, pending[n]);
        todo := todo - {n};
      }
    }

    method FlushDone(pending: Values, ok: bool, now: real)
      modifies `flushedAt, `dirty, `lastWriteOk
      ensures View() == if ok then Settled(old(View()), pending, now) else old(View())
      ensures lastWriteOk == if ok then now else old(lastWriteOk)
    {
      if !ok { return; }
      lastWriteOk := now;
      var todo := pending.Keys;
      while todo != {}
        invariant todo <= pending.Keys && lastWriteOk == now
        invariant flushedAt.Keys == old(flushedAt).Keys + (pending.Keys - todo)
        invariant forall n :: n in flushedAt ==> flushedAt[n] == if n in pending && n !in todo then now else old(flushedAt)[n]
        invariant forall n :: n in dirty <==>
                    n in old(dirty) && !(n in pending && n !in todo && n in cache && cache[n] == pending[n])
      {
        var n :| n in todo;
        flushedAt := flushedAt[n := now];
        if n in cache && cache[n] == pending[n] { dirty := dirty - {n}; }
        todo := todo - {n};
      }
    }

    // worker: measurements

    method RefreshDevice(names: set<string>)
      requires forall n :: n in names ==> io.Has(n) && n in meas
      modifies `meas
      ensures meas == RefreshedOne(old(meas), names, io.tags)
    {
      var todo := names;
      while todo != {}
        invariant todo <= names && meas.Keys == old(meas).Keys
        invariant forall n :: n in meas ==> meas[n] == if n in names - todo then io.Get(n) else old(meas)[n]
      {
        var n :| n in todo;
        meas := meas[n := io.Get(n)];
        todo := todo - {n};
      }
    }

    method ReadDone(failed: set<string>, now: real)
      requires lastOk.Keys == measured.Keys
      requires forall d, n :: d in measured && n in measured[d] ==> io.Has(n) && n in meas
      modifies `meas, `lastOk
      ensures meas == Refreshed(old(meas), measured, failed, io.tags)
      ensures lastOk == Stamped(old(lastOk), failed, now)
    {
      var todo := measured.Keys - failed;
      assert Refreshed(meas, measured, failed + todo, io.tags) == meas;
      hide Refreshed, RefreshedOne;
      while todo != {}
        invariant todo <= measured.Keys - failed
        invariant meas.Keys == old(meas).Keys && meas == Refreshed(old(meas), measured, failed + todo, io.tags)
        invariant lastOk == Stamped(old(lastOk), failed + todo, now)
      {
        var d :| d in todo;
        RefreshOneMore(old(meas), measured, failed + todo, d, io.tags);
        assert failed + todo - {d} == failed + (todo - {d});
        RefreshDevice(measured[d]);
        lastOk := lastOk[d := now];
        todo := todo - {d};
      }
      assert failed + todo == failed;
    }

    /** The cache and the ages, copied to the live tags. False stands for the RuntimeError over a
        worker that died, which comes first. */
    method ReadState(state: SystemState, now: real, died: bool) returns (ok: bool)
      requires lastOk.Keys == measured.Keys && meas.Keys <= state.tags.Keys
      modifies state
      ensures ok == !died && (died ==> state.tags == old(state.tags))
      ensures !died ==>
                var shown := Shown(Shown(CopiedIn(old(state.tags), meas), COMMS_AGE, GlobalAge(lastOk, now)),
                                   WRITE_AGE, AgeOf(lastWriteOk, now));
                DevicesShown(shown, state.tags, if perDevice then lastOk.Keys else {}, lastOk, now)
    {
      if died { return false; }
      ok := true;
      var todo := meas.Keys;
      while todo != {}
        invariant todo <= meas.Keys && state.tags.Keys == old(state.tags).Keys
        invariant forall n :: n in state.tags ==>
                    state.tags[n] == if n in todo then old(state.tags)[n] else CopiedIn(old(state.tags), meas)[n]
      {
        var n :| n in todo;
        var _ := state.ApplyDriverValue(n, meas[n]);
        todo := todo - {n};
      }
      assert state.tags == CopiedIn(old(state.tags), meas);
      var age := AgeS(now);
      if state.Has(COMMS_AGE) { var _ := state.ApplyDriverValue(COMMS_AGE, age); }
      if state.Has(WRITE_AGE) { var _ := state.ApplyDriverValue(WRITE_AGE, AgeOf(lastWriteOk, now)); }
      if perDevice { ShowDevices(state, now); }
    }

    method ShowDevices(state: SystemState, now: real)
      modifies state
      ensures DevicesShown(old(state.tags), state.tags, lastOk.Keys, lastOk, now)
    {
      var todo := lastOk.Keys;
      while todo != {}
        invariant todo <= lastOk.Keys && DevicesShown(old(state.tags), state.tags, lastOk.Keys - todo, lastOk, now)
      {
        var d :| d in todo;
        forall e ensures AgeTag(d) == AgeTag(e) ==> d == e { AgeTagInjective(d, e); }
        if state.Has(AgeTag(d)) { var _ := state.ApplyDriverValue(AgeTag(d), AgeOf(lastOk[d], now)); }
        assert lastOk.Keys - (todo - {d}) == lastOk.Keys - todo + {d};
        todo := todo - {d};
        hide AgeTag;
      }
      assert lastOk.Keys - todo == lastOk.Keys;
    }

    method AgeS(now: real) returns (age: Ext)
      requires lastOk.Keys == measured.Keys
      ensures age == GlobalAge(lastOk, now)
    {
      var todo := lastOk.Keys;
      age := if todo == {} then PosInf else NegInf;
      while todo != {}
        invariant todo <= lastOk.Keys
        invariant todo == lastOk.Keys ==> age == if todo == {} then PosInf else NegInf
        invariant lastOk != map[] ==> IsAgeOf(age, lastOk, lastOk.Keys - todo, now)
      {
        var d :| d in todo;
        age := MaxE(age, AgeOf(lastOk[d], now));
        todo := todo - {d};
      }
      assert lastOk.Keys - todo == lastOk.Keys;
      if lastOk != map[] { AgeUnique(age, GlobalAge(lastOk, now), lastOk, now); }
    }
  }

  /** Healthy devices' measurements are replaced from the worker's store, the others withheld. */
  function Refreshed(meas: Values, measured: map<string, set<string>>, failed: set<string>, io: Tags): Values {
    map n | n in meas :: if n in io && exists d :: d in measured && d !in failed && n in measured[d] then io[n].value else meas[n]
  }

  function RefreshedOne(meas: Values, names: set<string>, io: Tags): (after: Values)
    ensures after.Keys == meas.Keys
  {
    map n | n in meas :: if n in names && n in io then io[n].value else meas[n]
  }

  lemma RefreshOneMore(meas: Values, measured: map<string, set<string>>, failed: set<string>, d: string, io: Tags)
    requires d in measured && d in failed
    ensures RefreshedOne(Refreshed(meas, measured, failed, io), measured[d], io) == Refreshed(meas, measured, failed - {d}, io)
  {}

  function Stamped(lastOk: map<string, real>, failed: set<string>, now: real): map<string, real> {
    map d | d in lastOk :: if d in failed then lastOk[d] else now
  }

  /** age is the largest age among the devices ds: it bounds each of them and is one of them. */
  ghost predicate IsAgeOf(age: Ext, lastOk: map<string, real>, ds: set<string>, now: real)
    requires ds <= lastOk.Keys
  {
    && (forall d :: d in ds ==> Le(AgeOf(lastOk[d], now), age))
    && (if ds == {} then age == NegInf else exists d :: d in ds && age == AgeOf(lastOk[d], now))
  }

  lemma AgeUnique(a: Ext, b: Ext, lastOk: map<string, real>, now: real)
    requires IsAgeOf(a, lastOk, lastOk.Keys, now) && IsAgeOf(b, lastOk, lastOk.Keys, now)
    ensures a == b
  {}

  /** The age of the stalest device. */
  ghost function GlobalAge(lastOk: map<string, real>, now: real): (age: Ext)
    ensures lastOk != map[] ==> IsAgeOf(age, lastOk, lastOk.Keys, now)
    ensures lastOk == map[] ==> age == PosInf
  {
    if lastOk == map[] then PosInf
    else
      var d :| d in lastOk;
      var rest := lastOk - {d};
      if rest == map[] then
        assert lastOk.Keys == rest.Keys + {d};
        AgeOf(lastOk[d], now)
      else
        assert lastOk.Keys == rest.Keys + {d};
        MaxE(AgeOf(lastOk[d], now), GlobalAge(rest, now))
  }
}
