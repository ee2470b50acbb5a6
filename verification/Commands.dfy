/** The operator's command document and the hard switch
    (src/pyems/commands.py, src/pyems/controllers/hard_switch.py). */
module Commands {
  import opened Num
  import opened Channels
  import opened CachedDriver

  datatype Action = Start | Stop

  /** The parsed document. A field that is absent, of the wrong type or not finite is None; an
      absent, unreadable or malformed file is the document with nothing in it. */
  datatype Doc = Doc(issuedAt: Option<real>, enabled: bool, action: Option<Action>, actionId: Option<real>)

  datatype Read = Read(doc: Doc, now: real)

  datatype Run = Run(start: real, maxAge: real)

  /** The latch: whether generation is allowed, and the last generation command looked at. */
  datatype Latch = Latch(allowed: bool, lastId: Option<real>)

  predicate OfThisRun(k: Run, r: Read) {
    r.doc.issuedAt.Some? && r.doc.issuedAt.value > k.start
  }

  function AgeAt(r: Read): Ext {
    if r.doc.issuedAt.Some? then Fin(Max(0.0, r.now - r.doc.issuedAt.value)) else PosInf
  }

  predicate IsFresh(k: Run, r: Read) {
    Le(AgeAt(r), Fin(k.maxAge))
  }

  function Latched(k: Run, l: Latch, r: Read): Latch {
    if !OfThisRun(k, r) then Latch(false, l.lastId)
    else if r.doc.issuedAt == l.lastId then l
    else Latch(if !r.doc.enabled || IsFresh(k, r) then r.doc.enabled else l.allowed, r.doc.issuedAt)
  }

  datatype Fire = Fire(id: real, action: Action)

  /** The hard command the tags publish: only one issued in this run. */
  function Fireable(k: Run, d: Doc): Option<Fire> {
    if d.action.Some? && d.actionId.Some? && d.actionId.value > k.start then Some(Fire(d.actionId.value, d.action.value)) else None
  }

  class CommandFileReader {
    const run: Run
    var allowed: bool
    var lastId: Option<real>
    var lastInverterId: Option<real>

    constructor (run: Run)
      ensures this.run == run && View() == Latch(false, None) && lastInverterId == None
    {
      this.run, allowed, lastId, lastInverterId := run, false, None, None;
    }

    function View(): Latch
      reads this
    {
      Latch(allowed, lastId)
    }

    /** Returns what the inverter tags show: None stands for their not-a-number. */
    method Apply(doc: Doc, now: real, state: SystemState) returns (fire: Option<Fire>)
      requires state.Has(GENERATION_ALLOWED) && state.Has(COMMAND_AGE)
      modifies this, state
      ensures View() == Latched(run, old(View()), Read(doc, now))
      ensures state.tags == Observed(Observed(old(state.tags), GENERATION_ALLOWED, Fin(if allowed then 1.0 else 0.0)),
                                     COMMAND_AGE, AgeAt(Read(doc, now)))
      ensures fire == Fireable(run, doc)
      ensures lastInverterId == if fire.Some? then Some(fire.value.id) else old(lastInverterId)
    {
      var age := PosInf;
      if doc.issuedAt.Some? {
        var issued := doc.issuedAt.value;
        age := Fin(Max(0.0, now - issued));
        var recent := Le(age, Fin(run.maxAge));
        if !(issued > run.start) {
          allowed := false;
        } else if lastId != Some(issued) {
          if !doc.enabled || recent { allowed := doc.enabled; }
          lastId := Some(issued);
        }
      } else {
        allowed := false;
      }
      var _ := state.ApplyDriverValue(GENERATION_ALLOWED, Fin(if allowed then 1.0 else 0.0));
      var _ := state.ApplyDriverValue(COMMAND_AGE, age);
      fire := None;
      if doc.action.Some? && doc.actionId.Some? && doc.actionId.value > run.start {
        fire := Some(Fire(doc.actionId.value, doc.action.value));
        if lastInverterId != Some(fire.value.id) { lastInverterId := Some(fire.value.id); }
      }
    }
  }

  // --- permission has a witness --------------------------------------------------------------------

  function LatchAfter(k: Run, rs: seq<Read>): Latch {
    if rs == [] then Latch(false, None) else Latched(k, LatchAfter(k, rs[..|rs| - 1]), rs[|rs| - 1])
  }

  /** The i-th read looked at a command of this run that the latest such read before it, if
      there was one, had not shown. */
  ghost predicate Processes(k: Run, rs: seq<Read>, i: nat)
    requires i < |rs|
  {
    && OfThisRun(k, rs[i])
    && forall j :: Precedes(k, rs, j, i) ==> rs[j].doc.issuedAt != rs[i].doc.issuedAt
  }

  /** j is the latest read of this run before i. */
  ghost predicate Precedes(k: Run, rs: seq<Read>, j: int, i: nat) {
    0 <= j < i <= |rs| && OfThisRun(k, rs[j]) && forall m :: j < m < i ==> !OfThisRun(k, rs[m])
  }

  /** The latch remembers the id the latest read of this run showed; at is -1 if there is none. */
  lemma {:induction false} LastIdSeen(k: Run, rs: seq<Read>) returns (at: int)
    ensures -1 <= at < |rs| && forall m :: at < m < |rs| ==> !OfThisRun(k, rs[m])
    ensures if at < 0 then LatchAfter(k, rs).lastId == None
            else OfThisRun(k, rs[at]) && LatchAfter(k, rs).lastId == rs[at].doc.issuedAt
  {
    if rs == [] {
      at := -1;
    } else {
      var last := |rs| - 1;
      at := LastIdSeen(k, rs[..last]);
      if OfThisRun(k, rs[last]) { at := last; }
    }
  }

  /** What the latch compares with its last id is what the history says. */
  lemma ProcessesIsNewId(k: Run, rs: seq<Read>, i: nat)
    requires i < |rs|
    ensures Processes(k, rs, i) <==> OfThisRun(k, rs[i]) && rs[i].doc.issuedAt != LatchAfter(k, rs[..i]).lastId
  {
    var at := LastIdSeen(k, rs[..i]);
    forall m | at < m < i ensures !OfThisRun(k, rs[m]) {
      assert rs[..i][m] == rs[m];
    }
    if at >= 0 { assert Precedes(k, rs, at, i); }
    hide LatchAfter;
  }

  ghost predicate Enables(k: Run, rs: seq<Read>, i: nat)
    requires i < |rs|
  {
    Processes(k, rs, i) && rs[i].doc.enabled && IsFresh(k, rs[i])
  }

  ghost predicate Stops(k: Run, rs: seq<Read>, i: nat)
    requires i < |rs|
  {
    Processes(k, rs, i) && !rs[i].doc.enabled
  }

  /** Read i accepted a fresh enable; every read since was readable and of this run, and none
      processed a stop. */
  ghost predicate Witness(k: Run, rs: seq<Read>, i: nat) {
    i < |rs| && Enables(k, rs, i) && forall j :: i < j < |rs| ==> OfThisRun(k, rs[j]) && !Stops(k, rs, j)
  }

  lemma PrefixAgrees(k: Run, rs: seq<Read>, i: nat)
    requires i < |rs| - 1
    ensures Processes(k, rs, i) <==> Processes(k, rs[..|rs| - 1], i)
  {
    assert forall j :: Precedes(k, rs[..|rs| - 1], j, i) <==> Precedes(k, rs, j, i);
  }

  lemma WitnessExtends(k: Run, rs: seq<Read>, i: nat)
    requires rs != []
    ensures var init, last := rs[..|rs| - 1], |rs| - 1;
            Witness(k, rs, i) <==>
              (Witness(k, init, i) && OfThisRun(k, rs[last]) && !Stops(k, rs, last)) || (i == last && Enables(k, rs, last))
  {
    hide Processes, OfThisRun, IsFresh;
    forall j: nat | j < |rs| - 1 ensures Processes(k, rs, j) <==> Processes(k, rs[..|rs| - 1], j) {
      PrefixAgrees(k, rs, j);
    }
  }

  /** Generation is allowed exactly if there is such a witness. */
  lemma {:induction false} AllowedIffWitness(k: Run, rs: seq<Read>)
    ensures LatchAfter(k, rs).allowed <==> exists i: nat :: Witness(k, rs, i)
  {
    if rs != [] {
      var init, last := rs[..|rs| - 1], |rs| - 1;
      AllowedIffWitness(k, init);
      ProcessesIsNewId(k, rs, last);
      forall i: nat ensures Witness(k, rs, i) <==>
        (Witness(k, init, i) && OfThisRun(k, rs[last]) && !Stops(k, rs, last)) || (i == last && Enables(k, rs, last))
      {
        WitnessExtends(k, rs, i);
      }
      assert Witness(k, rs, last) <==> Enables(k, rs, last) by { assert !Witness(k, init, last); }
      if LatchAfter(k, init).allowed {
        var i: nat :| Witness(k, init, i);
        assert Witness(k, rs, i) <==> OfThisRun(k, rs[last]) && !Stops(k, rs, last) by { assert i < last; }
      }
      hide Witness;
    }
  }

  /** The document carries a time of issue after the run's start. */
  predicate IssuedSince(d: Doc, start: real) {
    d.issuedAt.Some? && start < d.issuedAt.value
  }

  /** In the document's own numbers: generation is allowed only if some read showed an enable issued
      after the run's start and not older than the limit, and every read since showed a command
      issued after the start, of which none newly seen was a stop. */
  lemma AllowedInNumbers(k: Run, rs: seq<Read>) returns (i: nat)
    requires LatchAfter(k, rs).allowed
    ensures i < |rs| && rs[i].doc.enabled && IssuedSince(rs[i].doc, k.start)
    ensures rs[i].now - rs[i].doc.issuedAt.value <= k.maxAge
    ensures forall j :: i <= j < |rs| ==> IssuedSince(rs[j].doc, k.start)
    ensures forall j :: i < j < |rs| && rs[j].doc.issuedAt != rs[j - 1].doc.issuedAt ==> rs[j].doc.enabled
  {
    AllowedIffWitness(k, rs);
    hide LatchAfter, Processes, IsFresh, Precedes;
    i :| Witness(k, rs, i);
    FreshInTime(k, rs[i]);
    assert Processes(k, rs, i);
    ProcessedIssued(k, rs, i);
    forall j | i < j < |rs| && rs[j].doc.issuedAt != rs[j - 1].doc.issuedAt ensures rs[j].doc.enabled {
      assert OfThisRun(k, rs[j]) && !Stops(k, rs, j);
      assert j - 1 > i ==> OfThisRun(k, rs[j - 1]);
      NewIdProcessed(k, rs, j);
    }
  }

  lemma FreshInTime(k: Run, r: Read)
    requires IsFresh(k, r)
    ensures r.doc.issuedAt.Some? && r.now - r.doc.issuedAt.value <= k.maxAge
  {}

  lemma ProcessedIssued(k: Run, rs: seq<Read>, i: nat)
    requires i < |rs| && Processes(k, rs, i)
    ensures OfThisRun(k, rs[i])
  {}

  lemma NewIdProcessed(k: Run, rs: seq<Read>, j: nat)
    requires 0 < j < |rs| && OfThisRun(k, rs[j - 1]) && OfThisRun(k, rs[j]) && rs[j].doc.issuedAt != rs[j - 1].doc.issuedAt
    ensures Processes(k, rs, j)
  {
    assert forall m :: Precedes(k, rs, m, j) ==> m == j - 1;
  }

  /** And it is allowed as soon as a new enable is read in time, and for as long as it is read. */
  lemma EnabledInTime(k: Run, rs: seq<Read>, i: nat)
    requires i < |rs| && rs[i].doc.enabled && IssuedSince(rs[i].doc, k.start)
    requires 0.0 <= k.maxAge && rs[i].now - rs[i].doc.issuedAt.value <= k.maxAge
    requires forall j :: 0 <= j < i ==> rs[j].doc.issuedAt != rs[i].doc.issuedAt
    requires forall j :: i < j < |rs| ==> rs[j].doc.issuedAt == rs[i].doc.issuedAt
    ensures LatchAfter(k, rs).allowed
  {
    hide LatchAfter;
    assert Processes(k, rs, i) by { NeverSeen(k, rs, i); }
    forall j | i < j < |rs| ensures OfThisRun(k, rs[j]) && !Stops(k, rs, j) {
      SameIdPasses(k, rs, j);
    }
    assert Witness(k, rs, i);
    AllowedIffWitness(k, rs);
  }

  lemma NeverSeen(k: Run, rs: seq<Read>, i: nat)
    requires i < |rs| && OfThisRun(k, rs[i]) && forall j :: 0 <= j < i ==> rs[j].doc.issuedAt != rs[i].doc.issuedAt
    ensures Processes(k, rs, i)
  {}

  lemma SameIdPasses(k: Run, rs: seq<Read>, j: nat)
    requires 0 < j < |rs| && OfThisRun(k, rs[j - 1]) && rs[j].doc.issuedAt == rs[j - 1].doc.issuedAt
    ensures OfThisRun(k, rs[j]) && !Processes(k, rs, j)
  {
    assert Precedes(k, rs, j - 1, j);
  }

  /** The age shown is how long ago the command was issued, never negative; without one, for ever. */
  lemma AgeShown(r: Read)
    ensures AgeAt(r) == PosInf <==> r.doc.issuedAt.None?
    ensures r.doc.issuedAt.Some? ==>
              AgeAt(r).Fin? && (r.now >= r.doc.issuedAt.value ==> AgeAt(r).w == r.now - r.doc.issuedAt.value)
              && (r.now < r.doc.issuedAt.value ==> AgeAt(r).w == 0.0)
  {}

  // --- the hard switch --------------------------------------------------------------------------------

  /** One register write. */
  type Writes = seq<Command>

  /** The longest prefix of ws that goes to command registers. */
  function Sendable(ws: Writes, commands: set<string>): Writes {
    if ws == [] || ws[0].tag !in commands then [] else [ws[0]] + Sendable(ws[1..], commands)
  }

  /** None of the first i writes is refused. */
  ghost predicate SentBefore(ws: Writes, commands: set<string>, i: nat) {
    i <= |ws| && Sendable(ws, commands) == ws[..i] + Sendable(ws[i..], commands)
  }

  lemma NothingSent(ws: Writes, commands: set<string>)
    ensures SentBefore(ws, commands, 0)
  {
    assert ws[0..] == ws;
  }

  lemma SendsOn(ws: Writes, commands: set<string>, i: nat)
    requires SentBefore(ws, commands, i) && i < |ws|
    ensures if ws[i].tag in commands then SentBefore(ws, commands, i + 1) && ws[..i + 1] == ws[..i] + [ws[i]]
            else Sendable(ws, commands) == ws[..i] && Sendable(ws, commands) != ws
  {
    assert ws[i..][0] == ws[i] && ws[i..][1..] == ws[i + 1..] && ws[..i + 1] == ws[..i] + [ws[i]];
  }

  lemma AllSent(ws: Writes, commands: set<string>)
    requires SentBefore(ws, commands, |ws|)
    ensures Sendable(ws, commands) == ws
  {}

  /** The writes are sent in order up to the first that is refused, and all of them if none is. */
  lemma {:induction false} SentUpToRefusal(ws: Writes, commands: set<string>)
    ensures var k := |Sendable(ws, commands)|;
            && k <= |ws| && Sendable(ws, commands) == ws[..k]
            && (forall i :: 0 <= i < k ==> ws[i].tag in commands)
            && (k < |ws| ==> ws[k].tag !in commands)
  {
    if ws != [] && ws[0].tag in commands { SentUpToRefusal(ws[1..], commands); }
  }

  class HardSwitchController {
    const startWrites: Writes
    const stopWrites: Writes
    var lastId: Option<real>

    constructor (startWrites: Writes, stopWrites: Writes)
      requires startWrites != [] && stopWrites != []
      ensures this.startWrites == startWrites && this.stopWrites == stopWrites && lastId == None
    {
      this.startWrites, this.stopWrites, lastId := startWrites, stopWrites, None;
    }

    /** fire is what the inverter tags show. False stands for the ValueError of a write that is
        not a command, or of a missing status tag: what came before it stays done. */
    method Execute(fire: Option<Fire>, sink: CachedDriver, state: SystemState) returns (ok: bool)
      modifies this, sink`queue, state
      ensures var acts := fire.Some? && Some(fire.value.id) != old(lastId);
              var ws := if acts then (if fire.value.action.Start? then startWrites else stopWrites) else [];
              && lastId == (if acts then Some(fire.value.id) else old(lastId))
              && sink.queue == old(sink.queue) + Sendable(ws, sink.commands)
              && state.tags == (if acts && Sendable(ws, sink.commands) == ws
                                then Commanded(old(state.tags), INVERTER_RUN_STATE, Fin(if fire.value.action.Start? then 1.0 else 0.0))
                                else old(state.tags))
              && ok == (acts ==> Sendable(ws, sink.commands) == ws && Commandable(old(state.tags), INVERTER_RUN_STATE))
    {
      if fire.None? || Some(fire.value.id) == lastId { return true; }
      lastId := Some(fire.value.id);
      var start := fire.value.action.Start?;
      var ws := if start then startWrites else stopWrites;
      ok := SendAll(ws, sink);
      if ok { ok := state.Set(INVERTER_RUN_STATE, Fin(if start then 1.0 else 0.0)); }
    }

    method SendAll(ws: Writes, sink: CachedDriver) returns (ok: bool)
      modifies sink`queue
      ensures sink.queue == old(sink.queue) + Sendable(ws, sink.commands)
      ensures ok == (Sendable(ws, sink.commands) == ws)
    {
      hide Sendable;
      NothingSent(ws, sink.commands);
      for i := 0 to |ws|
        invariant sink.queue == old(sink.queue) + ws[..i] && SentBefore(ws, sink.commands, i)
      {
        SendsOn(ws, sink.commands, i);
        ok := sink.SendCommand(ws[i].tag, ws[i].value);
        if !ok { return; }
      }
      ok := true;
      AllSent(ws, sink.commands);
    }
  }

  /** The ids acted on over a run of executions, each of which sees what the tags show. */
  function Fired(seen: seq<Option<real>>): seq<real> {
    if seen == [] then []
    else
      var fired := Fired(seen[..|seen| - 1]);
      var id := seen[|seen| - 1];
      if id.None? || id == LastActed(seen[..|seen| - 1]) then fired else fired + [id.value]
  }

  /** The id retained after a run of executions. */
  function LastActed(seen: seq<Option<real>>): Option<real> {
    if seen == [] then None
    else
      var last, id := LastActed(seen[..|seen| - 1]), seen[|seen| - 1];
      if id.None? || id == last then last else id
  }

  function Finite(seen: seq<Option<real>>): seq<real> {
    if seen == [] then []
    else
      var id := seen[|seen| - 1];
      Finite(seen[..|seen| - 1]) + if id.Some? then [id.value] else []
  }

  /** Consecutive repeats removed. */
  function Squeezed(ids: seq<real>): seq<real> {
    if |ids| <= 1 then ids
    else
      var n := |ids| - 1;
      if ids[n] == ids[n - 1] then Squeezed(ids[..n]) else Squeezed(ids[..n]) + [ids[n]]
  }

  lemma SqueezedMore(ids: seq<real>, id: real)
    ensures Squeezed(ids + [id]) == if ids != [] && ids[|ids| - 1] == id then Squeezed(ids) else Squeezed(ids) + [id]
  {
    assert (ids + [id])[..|ids|] == ids;
  }

  lemma FiniteMore(seen: seq<Option<real>>)
    requires seen != []
    ensures var init, id := seen[..|seen| - 1], seen[|seen| - 1];
            Finite(seen) == if id.Some? then Finite(init) + [id.value] else Finite(init)
  {}

  /** The switch acts once on each command: on the finite ids it sees, in order, with
      consecutive repeats removed. */
  lemma {:induction false} FiredOncePerId(seen: seq<Option<real>>)
    ensures Fired(seen) == Squeezed(Finite(seen))
    ensures LastActed(seen) == if Finite(seen) == [] then None else Some(Finite(seen)[|Finite(seen)| - 1])
  {
    if seen != [] {
      hide Squeezed, Finite;
      var init, id := seen[..|seen| - 1], seen[|seen| - 1];
      FiredOncePerId(init);
      FiniteMore(seen);
      if id.Some? { SqueezedMore(Finite(init), id.value); }
    }
  }

  function SeenIn(k: Run, docs: seq<Doc>): (seen: seq<Option<real>>)
    ensures |seen| == |docs|
  {
    seq(|docs|, i requires 0 <= i < |docs| =>
      if Fireable(k, docs[i]).Some? then Some(Fireable(k, docs[i]).value.id) else None)
  }

  lemma {:induction false} SqueezedKeeps(ids: seq<real>, id: real)
    ensures id in Squeezed(ids) <==> id in ids
  {
    if |ids| > 1 {
      var n := |ids| - 1;
      SqueezedKeeps(ids[..n], id);
      assert ids == ids[..n] + [ids[n]];
    }
  }

  lemma {:induction false} FiniteKeeps(seen: seq<Option<real>>, id: real)
    ensures id in Finite(seen) <==> Some(id) in seen
  {
    if seen != [] {
      FiniteKeeps(seen[..|seen| - 1], id);
      assert seen == seen[..|seen| - 1] + [seen[|seen| - 1]];
    }
  }

  /** A command fires if and only if some document of the run shows its id with an action, and it was
      issued after the run's start. */
  lemma FiresIffIssued(k: Run, docs: seq<Doc>, id: real)
    ensures id in Fired(SeenIn(k, docs)) <==>
            id > k.start && exists i :: 0 <= i < |docs| && docs[i].actionId == Some(id) && docs[i].action.Some?
  {
    var seen := SeenIn(k, docs);
    FiredOncePerId(seen);
    SqueezedKeeps(Finite(seen), id);
    FiniteKeeps(seen, id);
    hide Fired, Squeezed, Finite;
    forall i | 0 <= i < |docs| ensures seen[i] == Some(id) <==>
                                       id > k.start && docs[i].actionId == Some(id) && docs[i].action.Some? {}
  }
}
