/** The foreground's acts woven into the bus worker's steps (src/pyems/drivers/cached.py): what
    becomes of the live store, and of each setpoint commanded and read for publication. */
module Weaving {
  import opened Num
  import opened Channels
  import opened CachedDriver
  import opened Interleaving
  import opened Publication

  // --- weaving ------------------------------------------------------------------------------------

  /** What can happen between two of the scan cycle's own steps: the worker's, and commands sent. */
  predicate Aside(e: Event) {
    OfCommands(e) || OfFlush(e) || OfPoll(e) || e.Send?
  }

  ghost predicate AllAside(es: seq<Event>) {
    forall i :: 0 <= i < |es| ==> Aside(es[i])
  }

  ghost predicate GapsAside(gaps: seq<seq<Event>>) {
    forall i :: 0 <= i < |gaps| ==> AllAside(gaps[i])
  }

  /** The foreground's acts in order, each after a gap of the worker's. */
  function Woven(acts: seq<Event>, gaps: seq<seq<Event>>): seq<Event>
    requires |gaps| == |acts|
  {
    if acts == [] then [] else Woven(acts[..|acts| - 1], gaps[..|acts| - 1]) + gaps[|acts| - 1] + [acts[|acts| - 1]]
  }

  /** The acts and the gaps from the i-th act on, up to the j-th act. */
  function Between(acts: seq<Event>, gaps: seq<seq<Event>>, i: nat, j: nat): seq<Event>
    requires |gaps| == |acts| && i <= j < |acts|
  {
    Woven(acts[i..j], gaps[i..j]) + gaps[j]
  }

  lemma {:induction false} WovenSplit(acts: seq<Event>, gaps: seq<seq<Event>>, i: nat)
    requires |gaps| == |acts| && i <= |acts|
    ensures Woven(acts, gaps) == Woven(acts[..i], gaps[..i]) + Woven(acts[i..], gaps[i..])
  {
    if i == |acts| {
      assert acts[..i] == acts && gaps[..i] == gaps && acts[i..] == [];
    } else {
      var k := |acts| - 1;
      WovenSplit(acts[..k], gaps[..k], i);
      assert acts[..k][..i] == acts[..i] && gaps[..k][..i] == gaps[..i];
      assert acts[i..][..k - i] == acts[..k][i..] && gaps[i..][..k - i] == gaps[..k][i..];
      assert acts[i..][k - i] == acts[k] && gaps[i..][k - i] == gaps[k];
    }
  }

  /** Up to an act, the act, and from there to a later one. */
  lemma WovenAt(acts: seq<Event>, gaps: seq<seq<Event>>, i: nat, j: nat)
    requires |gaps| == |acts| && i < j < |acts|
    ensures Between(acts, gaps, 0, j) == Between(acts, gaps, 0, i) + [acts[i]] + Between(acts, gaps, i + 1, j)
  {
    var a, g := acts[..j], gaps[..j];
    WovenSplit(a, g, i + 1);
    assert acts[0..j] == a && gaps[0..j] == g && acts[0..i] == acts[..i] && gaps[0..i] == gaps[..i];
    assert a[..i + 1][..i] == acts[..i] && g[..i + 1][..i] == gaps[..i];
    assert a[i + 1..] == acts[i + 1..j] && g[i + 1..] == gaps[i + 1..j];
  }

  ghost predicate NoneSets(acts: seq<Event>, n: string) {
    forall i :: 0 <= i < |acts| ==> !Sets(acts[i], n)
  }

  ghost predicate NoneReads(acts: seq<Event>, n: string) {
    forall i :: 0 <= i < |acts| ==> !Reads(acts[i], n)
  }

  ghost predicate NonePublish(acts: seq<Event>) {
    forall i :: 0 <= i < |acts| ==> !acts[i].Publish?
  }

  lemma {:induction false} WovenNever(acts: seq<Event>, gaps: seq<seq<Event>>, n: string)
    requires |gaps| == |acts| && GapsAside(gaps)
    ensures NoneSets(acts, n) ==> NeverSet(Woven(acts, gaps), n)
    ensures NoneReads(acts, n) ==> NeverRead(Woven(acts, gaps), n)
    ensures NonePublish(acts) ==> NonePublish(Woven(acts, gaps))
  {
    if acts != [] {
      var k := |acts| - 1;
      assert GapsAside(gaps[..k]) && AllAside(gaps[k]);
      WovenNever(acts[..k], gaps[..k], n);
      assert NoneSets(acts, n) ==> NoneSets(acts[..k], n);
      assert NoneReads(acts, n) ==> NoneReads(acts[..k], n);
      assert NonePublish(acts) ==> NonePublish(acts[..k]);
    }
  }

  lemma BetweenNever(acts: seq<Event>, gaps: seq<seq<Event>>, i: nat, j: nat, n: string)
    requires |gaps| == |acts| && i <= j < |acts| && GapsAside(gaps)
    ensures NoneSets(acts[i..j], n) ==> NeverSet(Between(acts, gaps, i, j), n)
    ensures NoneReads(acts[i..j], n) ==> NeverRead(Between(acts, gaps, i, j), n)
    ensures NonePublish(acts[i..j]) ==> NonePublish(Between(acts, gaps, i, j))
  {
    assert GapsAside(gaps[i..j]) && AllAside(gaps[j]);
    WovenNever(acts[i..j], gaps[i..j], n);
    hide GapsAside, Woven;
  }

  // --- the live store through woven steps -----------------------------------------------------------

  /** Two stores differ at most in the values of device channels. */
  ghost predicate SameOff(device: set<string>, tags: Tags, live: Tags) {
    SameChannels(tags, live) && forall n :: n in tags && n !in device ==> tags[n] == live[n]
  }

  lemma SameOffAgain(device: set<string>, a: Tags, b: Tags, c: Tags)
    requires SameOff(device, a, b) && SameOff(device, b, c)
    ensures SameOff(device, a, c) && SameOff(device, b, a)
  {}

  lemma LoadedOff(L: Layout, s: Sys, io: Tags)
    requires Shaped(L, s) && SameChannels(s.io, io)
    ensures SameOff(s.io.Keys, s.live, WithIo(L, s, io).live)
  {
    hide StoresFit, MirrorFits, PhaseFits, TagsOf, Unwritable;
  }

  lemma AsideOff(L: Layout, s: Sys, e: Event)
    requires Shaped(L, s) && Aside(e)
    ensures SameOff(s.io.Keys, s.live, Apply(L, s, e).live)
  {
    hide Apply, Shaped, IoAfter, Agree, WithIo;
    assert L.shared ==> Agree(s.live, s.io) by { ShapedAgrees(L, s); }
    IoStep(L, s, e);
    IoStays(L, s, e);
    LoadedOff(L, s, Apply(L, s, e).io);
    match e
    case LoadCommands => LoadCommandsStep(L, s);
    case LoadDue => LoadDueStep(L, s);
    case Poll(d, values) => PollStep(L, s, d, values);
    case _ => StoresKept(L, s, e);
  }

  lemma ShapedAgrees(L: Layout, s: Sys)
    requires Shaped(L, s)
    ensures L.shared ==> Agree(s.live, s.io)
  {}

  lemma IoKeys(L: Layout, s: Sys, e: Event)
    requires Shaped(L, s)
    ensures SameChannels(s.io, Apply(L, s, e).io)
  {
    ShapedAgrees(L, s);
    IoStep(L, s, e);
    IoStays(L, s, e);
    hide Apply, Shaped, IoAfter, Agree;
  }

  predicate IsAct(e: Event) {
    e.LiveSet? || e.Gather? || e.Publish?
  }

  /** What an act of the scan cycle does to its tags. */
  function Does(tags: Tags, e: Event): (after: Tags)
    ensures SameChannels(tags, after)
  {
    if e.LiveSet? then Commanded(tags, e.name, e.value) else tags
  }

  function Done(tags: Tags, acts: seq<Event>): (after: Tags)
    ensures SameChannels(tags, after)
  {
    if acts == [] then tags else Does(Done(tags, acts[..|acts| - 1]), acts[|acts| - 1])
  }

  lemma {:induction false} DoneTogether(tags: Tags, a: seq<Event>, b: seq<Event>)
    ensures Done(tags, a + b) == Done(Done(tags, a), b)
  {
    if b == [] {
      assert a + b == a;
    } else {
      assert (a + b)[..|a + b| - 1] == a + b[..|b| - 1];
      DoneTogether(tags, a, b[..|b| - 1]);
      hide Does;
    }
  }

  lemma DoesOff(device: set<string>, tags: Tags, live: Tags, e: Event)
    requires SameOff(device, tags, live)
    ensures SameOff(device, Does(tags, e), Does(live, e))
  {}

  lemma {:induction false} DoneOff(device: set<string>, tags: Tags, live: Tags, acts: seq<Event>)
    requires SameOff(device, tags, live)
    ensures SameOff(device, Done(tags, acts), Done(live, acts))
  {
    if acts != [] {
      hide SameOff, Does;
      DoneOff(device, tags, live, acts[..|acts| - 1]);
      DoesOff(device, Done(tags, acts[..|acts| - 1]), Done(live, acts[..|acts| - 1]), acts[|acts| - 1]);
    }
  }

  lemma ActOff(L: Layout, s: Sys, e: Event)
    requires Shaped(L, s) && IsAct(e)
    ensures Apply(L, s, e).live == Does(s.live, e)
  {
    hide Apply, Shaped, Agree;
    ShapedAgrees(L, s);
    match e
    case LiveSet(n, v) => SetStep(L, s, n, v);
    case _ => StoresKept(L, s, e);
  }

  lemma {:induction false} RunAside(L: Layout, s: Sys, es: seq<Event>)
    requires Shaped(L, s) && AllAside(es)
    ensures var t := Run(L, s, es);
            Shaped(L, t) && SameOff(s.io.Keys, s.live, t.live) && SameChannels(s.io, t.io)
  {
    if es != [] {
      var init, last := es[..|es| - 1], es[|es| - 1];
      assert AllAside(init) && Aside(last);
      hide Apply, Shaped, AllAside, Aside, SameChannels, SameOff;
      RunAside(L, s, init);
      var u := Run(L, s, init);
      ShapedStep(L, u, last);
      AsideOff(L, u, last);
      IoKeys(L, u, last);
      SameTwice(s.io, u.io, Apply(L, u, last).io);
      SameKeysOf(s.io, u.io);
      SameOffAgain(s.io.Keys, s.live, u.live, Apply(L, u, last).live);
    } else {
      SameAsItself(s.io, s.live);
    }
  }

  lemma SameKeysOf(a: Tags, b: Tags)
    requires SameChannels(a, b)
    ensures a.Keys == b.Keys
  {}

  lemma SameAsItself(io: Tags, live: Tags)
    ensures SameChannels(io, io) && SameOff(io.Keys, live, live)
  {}

  ghost predicate AllActs(acts: seq<Event>) {
    forall i :: 0 <= i < |acts| ==> IsAct(acts[i])
  }

  lemma ActStep(L: Layout, s: Sys, u: Sys, tags: Tags, e: Event)
    requires Shaped(L, u) && IsAct(e) && SameChannels(s.io, u.io) && SameOff(s.io.Keys, tags, u.live)
    ensures var t := Apply(L, u, e);
            Shaped(L, t) && SameChannels(s.io, t.io) && SameOff(s.io.Keys, Does(tags, e), t.live)
  {
    hide Apply, Shaped, SameChannels, SameOff, Does;
    ShapedStep(L, u, e);
    IoKeys(L, u, e);
    SameTwice(s.io, u.io, Apply(L, u, e).io);
    ActOff(L, u, e);
    DoesOff(s.io.Keys, tags, u.live, e);
  }

  lemma GapStep(L: Layout, s: Sys, u: Sys, tags: Tags, gap: seq<Event>)
    requires Shaped(L, u) && AllAside(gap) && SameChannels(s.io, u.io) && SameOff(s.io.Keys, tags, u.live)
    ensures var t := Run(L, u, gap);
            Shaped(L, t) && SameChannels(s.io, t.io) && SameOff(s.io.Keys, tags, t.live)
  {
    hide Run, Shaped, SameChannels, SameOff, AllAside;
    RunAside(L, u, gap);
    SameTwice(s.io, u.io, Run(L, u, gap).io);
    SameKeysOf(s.io, u.io);
    SameOffAgain(s.io.Keys, tags, u.live, Run(L, u, gap).live);
  }

  /** Off the device channels the live store is what the foreground's acts make of it. */
  lemma {:induction false} WovenOff(L: Layout, s: Sys, tags: Tags, acts: seq<Event>, gaps: seq<seq<Event>>)
    requires Shaped(L, s) && SameOff(s.io.Keys, tags, s.live) && |gaps| == |acts| && AllActs(acts) && GapsAside(gaps)
    ensures var t := Run(L, s, Woven(acts, gaps));
            Shaped(L, t) && SameChannels(s.io, t.io) && SameOff(s.io.Keys, Done(tags, acts), t.live)
  {
    if acts == [] {
      SameAsItself(s.io, s.live);
      assert Run(L, s, []) == s;
    } else {
      var k := |acts| - 1;
      var init, gap, act := Woven(acts[..k], gaps[..k]), gaps[k], acts[k];
      assert AllActs(acts[..k]) && GapsAside(gaps[..k]) && IsAct(act) && AllAside(gap);
      assert Woven(acts, gaps) == init + gap + [act];
      hide Run, Apply, Shaped, SameChannels, SameOff, AllActs, GapsAside, AllAside, Does, Woven;
      WovenOff(L, s, tags, acts[..k], gaps[..k]);
      var told := Done(tags, acts[..k]);
      GapStep(L, s, Run(L, s, init), told, gap);
      RunAppend(L, s, init, gap);
      ActStep(L, s, Run(L, s, init + gap), told, act);
      RunStep(L, s, init + gap, act);
    }
  }

  // --- from arbitration to publication ------------------------------------------------------------

  lemma BetweenOff(L: Layout, s: Sys, acts: seq<Event>, gaps: seq<seq<Event>>, j: nat)
    requires Shaped(L, s) && |gaps| == |acts| && j < |acts| && AllActs(acts) && GapsAside(gaps)
    ensures var t := Run(L, s, Between(acts, gaps, 0, j));
            Shaped(L, t) && SameChannels(s.io, t.io) && SameOff(s.io.Keys, Done(s.live, acts[..j]), t.live)
  {
    assert acts[0..j] == acts[..j] && gaps[0..j] == gaps[..j] && AllActs(acts[..j]) && GapsAside(gaps[..j]) && AllAside(gaps[j]);
    SameAsItself(s.io, s.live);
    hide Run, Shaped, SameChannels, SameOff, AllActs, GapsAside, AllAside, Woven, Done;
    WovenOff(L, s, s.live, acts[..j], gaps[..j]);
    GapStep(L, s, Run(L, s, Woven(acts[..j], gaps[..j])), Done(s.live, acts[..j]), gaps[j]);
    RunAppend(L, s, Woven(acts[..j], gaps[..j]), gaps[j]);
  }

  /** The last value the worker puts on a setpoint between the i-th act, its command, and the k-th,
      its reading for publication. */
  function Lands(L: Layout, s: Sys, acts: seq<Event>, gaps: seq<seq<Event>>, i: nat, k: nat, n: string): Option<Ext>
    requires |gaps| == |acts| && i < k < |acts|
  {
    LastPut(L, Apply(L, Run(L, s, Between(acts, gaps, 0, i)), acts[i]), n, Between(acts, gaps, i + 1, k))
  }

  lemma PrivateLandsNone(L: Layout, s: Sys, acts: seq<Event>, gaps: seq<seq<Event>>, i: nat, k: nat, n: string)
    requires |gaps| == |acts| && i < k < |acts| && !L.shared
    ensures Lands(L, s, acts, gaps, i, k, n) == None
  {
    hide Run, Apply, Between, LastPut;
    PrivatePutsNone(L, Apply(L, Run(L, s, Between(acts, gaps, 0, i)), acts[i]), n, Between(acts, gaps, i + 1, k));
  }

  lemma CommandLands(L: Layout, s: Sys, acts: seq<Event>, gaps: seq<seq<Event>>, i: nat, n: string, v: Ext)
    requires Shaped(L, s) && |gaps| == |acts| && i < |acts| && AllActs(acts) && GapsAside(gaps)
    requires n in L.writable && Commandable(s.live, n) && acts[i] == LiveSet(n, v)
    ensures var u := Apply(L, Run(L, s, Between(acts, gaps, 0, i)), acts[i]);
            Shaped(L, u) && n in u.live && u.live[n].value == Clamped(s.live, n, v)
  {
    hide Run, Apply, Shaped, AllActs, GapsAside, Between;
    BetweenOff(L, s, acts, gaps, i);
    var before := Run(L, s, Between(acts, gaps, 0, i));
    ShapedStep(L, before, acts[i]);
    SetTo(L, before, n, v);
  }

  lemma SplitRun(L: Layout, s: Sys, acts: seq<Event>, gaps: seq<seq<Event>>, i: nat, j: nat)
    requires |gaps| == |acts| && i < j < |acts|
    ensures Run(L, s, Between(acts, gaps, 0, j)) ==
            Run(L, Apply(L, Run(L, s, Between(acts, gaps, 0, i)), acts[i]), Between(acts, gaps, i + 1, j))
  {
    hide Run, Apply, Between;
    WovenAt(acts, gaps, i, j);
    RunStep(L, s, Between(acts, gaps, 0, i), acts[i]);
    RunAppend(L, s, Between(acts, gaps, 0, i) + [acts[i]], Between(acts, gaps, i + 1, j));
  }

  /** What is read for publication is the commanded value, unless the worker put another on it
      since. */
  lemma CommandGathered(
    L: Layout, s: Sys, acts: seq<Event>, gaps: seq<seq<Event>>, i: nat, k: nat, last: nat, n: string, v: Ext)
    requires Shaped(L, s) && |gaps| == |acts| && i < k < last < |acts| && AllActs(acts) && GapsAside(gaps)
    requires n in L.writable && Commandable(s.live, n) && acts[i] == LiveSet(n, v) && acts[k] == Gather(n)
    requires NoneSets(acts[i + 1..k], n) && NoneReads(acts[k + 1..last], n)
    ensures var t := Run(L, s, Between(acts, gaps, 0, last));
            n in t.gathered && t.gathered[n] == Over(Lands(L, s, acts, gaps, i, k, n), Clamped(s.live, n, v))
  {
    hide Run, Apply, Shaped, Between, AllActs, NoneSets, NoneReads, GapsAside, NeverSet, NeverRead, LastPut;
    CommandLands(L, s, acts, gaps, i, n, v);
    SplitRun(L, s, acts, gaps, i, k);
    SplitRun(L, s, acts, gaps, k, last);
    BetweenNever(acts, gaps, i + 1, k, n);
    BetweenNever(acts, gaps, k + 1, last, n);
    GatheredIsLastPut(L, Apply(L, Run(L, s, Between(acts, gaps, 0, i)), acts[i]), n,
                      Between(acts, gaps, i + 1, k), Between(acts, gaps, k + 1, last));
  }

  /** What is read once stays read. */
  lemma ReadStays(L: Layout, s: Sys, acts: seq<Event>, gaps: seq<seq<Event>>, k: nat, last: nat, n: string)
    requires Shaped(L, s) && |gaps| == |acts| && k < last < |acts| && AllActs(acts) && GapsAside(gaps)
    requires n in L.writable && acts[k] == Gather(n) && NoneReads(acts[k + 1..last], n)
    ensures n in Run(L, s, Between(acts, gaps, 0, last)).gathered
  {
    hide Run, Apply, Shaped, Between, AllActs, NoneReads, GapsAside, NeverSet, NeverRead;
    SplitRun(L, s, acts, gaps, k, last);
    BetweenNever(acts, gaps, k + 1, last, n);
    BetweenOff(L, s, acts, gaps, k);
    var u := Run(L, s, Between(acts, gaps, 0, k));
    ShapedHas(L, u, n);
    GatherStep(L, u, n);
    GatheredLasts(L, Apply(L, u, acts[k]), n, Between(acts, gaps, k + 1, last));
  }

  lemma {:induction false} CacheLasts(L: Layout, s: Sys, es: seq<Event>)
    requires NonePublish(es)
    ensures Run(L, s, es).mirror.cache == s.mirror.cache
  {
    if es != [] {
      assert NonePublish(es[..|es| - 1]) && !es[|es| - 1].Publish?;
      hide Apply, NonePublish;
      CacheLasts(L, s, es[..|es| - 1]);
      CacheKept(L, Run(L, s, es[..|es| - 1]), es[|es| - 1]);
    }
  }

  /** A publication closes the weave: what was read joins what was published before. */
  lemma WovenPublishes(L: Layout, s: Sys, acts: seq<Event>, gaps: seq<seq<Event>>)
    requires |gaps| == |acts| && acts != [] && GapsAside(gaps) && acts[|acts| - 1] == Publish && NonePublish(acts[..|acts| - 1])
    ensures var g := Run(L, s, Between(acts, gaps, 0, |acts| - 1));
            var t := Run(L, s, Woven(acts, gaps));
            t.mirror.cache == s.mirror.cache + g.gathered && t.gathered == map[] && t == Apply(L, g, Publish)
  {
    var k := |acts| - 1;
    var es := Between(acts, gaps, 0, k);
    assert acts[0..k] == acts[..k] && gaps[0..k] == gaps[..k];
    assert Woven(acts, gaps) == es + [Publish];
    hide Run, Apply, Woven, GapsAside, NonePublish, Between;
    BetweenNever(acts, gaps, 0, k, "");
    CacheLasts(L, s, es);
    RunStep(L, s, es, Publish);
    PublishStep(L, Run(L, s, es));
  }
}
