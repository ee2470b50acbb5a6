/** How contending claims become one setpoint (src/pyems/allocation/allocator.py). */
module Arbitration {
  import opened Num
  import opened Requests
  import opened Journal

  const HOLD := "<hold-last>"
  const DEFAULT := "<default>"

  /** The physical properties of one setpoint channel. */
  datatype Config = Config(
    channel: string,
    pMin: real,
    pMax: real,
    defaultW: real,
    rampUp: real,
    rampDown: real,
    deadband: real)

  // --- greedy intersection ---------------------------------------------------

  datatype Span = Span(lo: real, hi: real)

  function Envelope(cfg: Config): Span {
    Span(cfg.pMin, cfg.pMax)
  }

  predicate Inside(g: Span, x: real) {
    g.lo <= x <= g.hi
  }

  /** The request's range still meets what higher ranks have left. */
  predicate Fits(g: Span, r: Request) {
    Le(MaxE(Fin(g.lo), r.min), MinE(Fin(g.hi), r.max))
  }

  function Narrow(g: Span, r: Request): Span
    requires Fits(g, r)
  {
    Span(MaxE(Fin(g.lo), r.min).w, MinE(Fin(g.hi), r.max).w)
  }

  /** What the envelope has shrunk to after the requests s, best rank first. */
  function Window(env: Span, s: seq<Request>): Span {
    if s == [] then env
    else
      var g := Window(env, s[..|s| - 1]);
      var r := s[|s| - 1];
      if Fits(g, r) then Narrow(g, r) else g
  }

  /** Whether the request at rank i is honored. */
  predicate Accepts(env: Span, s: seq<Request>, i: nat)
    requires i < |s|
  {
    Fits(Window(env, s[..i]), s[i])
  }

  function Verdicts(env: Span, s: seq<Request>): (v: seq<bool>)
    ensures |v| == |s| && forall i :: 0 <= i < |s| ==> v[i] == Accepts(env, s, i)
  {
    seq(|s|, i requires 0 <= i < |s| => Accepts(env, s, i))
  }

  function Honored(env: Span, s: seq<Request>): seq<Request> {
    if s == [] then []
    else
      var init := s[..|s| - 1];
      if Fits(Window(env, init), s[|s| - 1]) then Honored(env, init) + [s[|s| - 1]] else Honored(env, init)
  }

  /** The picked requests and the envelope all contain one common operating point. */
  ghost predicate Meets(env: Span, s: seq<Request>, pick: seq<bool>)
    requires |pick| == |s|
  {
    exists x :: Inside(env, x) && AllCover(s, pick, x)
  }

  ghost predicate AllCover(s: seq<Request>, pick: seq<bool>, x: real)
    requires |pick| == |s|
  {
    forall i :: 0 <= i < |s| && pick[i] ==> s[i].Covers(x)
  }

  /** At the first rank where the two choices differ, a honors and b does not. */
  ghost predicate Prefers(a: seq<bool>, b: seq<bool>)
    requires |a| == |b|
  {
    exists i :: 0 <= i < |a| && a[..i] == b[..i] && a[i] && !b[i]
  }

  /** The window holds exactly the points of the envelope that every honored range contains. */
  lemma {:induction false} WindowIsMeet(env: Span, s: seq<Request>, x: real)
    ensures Inside(Window(env, s), x) <==> Inside(env, x) && AllCover(s, Verdicts(env, s), x)
  {
    if s != [] {
      var init, r := s[..|s| - 1], s[|s| - 1];
      WindowIsMeet(env, init, x);
      if Fits(Window(env, init), r) { NarrowIsMeet(Window(env, init), r, x); }
      VerdictsExtend(env, s);
      AllCoverExtends(init, Verdicts(env, init), r, Accepts(env, s, |s| - 1), x);
      assert s == init + [r];
    }
  }

  lemma NarrowIsMeet(g: Span, r: Request, x: real)
    requires Fits(g, r)
    ensures Inside(Narrow(g, r), x) <==> Inside(g, x) && r.Covers(x)
  {}

  lemma VerdictsExtend(env: Span, s: seq<Request>)
    requires s != []
    ensures Verdicts(env, s) == Verdicts(env, s[..|s| - 1]) + [Accepts(env, s, |s| - 1)]
  {
    var init := s[..|s| - 1];
    forall i | 0 <= i < |init| ensures Accepts(env, s, i) == Accepts(env, init, i) {
      assert init[..i] == s[..i];
    }
  }

  lemma AllCoverExtends(s: seq<Request>, pick: seq<bool>, r: Request, p: bool, x: real)
    requires |pick| == |s|
    ensures AllCover(s + [r], pick + [p], x) <==> AllCover(s, pick, x) && (p ==> r.Covers(x))
  {
    if AllCover(s + [r], pick + [p], x) {
      forall i | 0 <= i < |s| && pick[i] ensures s[i].Covers(x) {
        assert (pick + [p])[i] && (s + [r])[i] == s[i];
      }
      assert (pick + [p])[|s|] == p && (s + [r])[|s|] == r;
    }
  }

  lemma {:induction false} WindowNonEmpty(env: Span, s: seq<Request>)
    requires env.lo <= env.hi
    ensures env.lo <= Window(env, s).lo <= Window(env, s).hi <= env.hi
  {
    if s != [] { WindowNonEmpty(env, s[..|s| - 1]); }
  }

  lemma WindowPrefix(env: Span, s: seq<Request>, t: seq<Request>)
    ensures Verdicts(env, s + t)[..|s|] == Verdicts(env, s)
  {
    forall i | 0 <= i < |s| ensures Accepts(env, s + t, i) == Accepts(env, s, i) {
      assert (s + t)[..i] == s[..i];
    }
  }

  /** The honored set is possible, and it is preferred to every other possible set. */
  lemma HonoredIsGreatest(env: Span, s: seq<Request>, pick: seq<bool>)
    requires env.lo <= env.hi && |pick| == |s|
    ensures Meets(env, s, Verdicts(env, s))
    ensures Meets(env, s, pick) ==> pick == Verdicts(env, s) || Prefers(Verdicts(env, s), pick)
  {
    var v := Verdicts(env, s);
    WindowNonEmpty(env, s);
    WindowIsMeet(env, s, Window(env, s).lo);
    if Meets(env, s, pick) && pick != v {
      var i := FirstDifference(v, pick);
      if pick[i] { PickedFits(env, s, pick, i); }
    }
  }

  lemma PickedFits(env: Span, s: seq<Request>, pick: seq<bool>, i: nat)
    requires |pick| == |s| && i < |s| && Meets(env, s, pick)
    requires pick[i] && Verdicts(env, s)[..i] == pick[..i]
    ensures Accepts(env, s, i)
  {
    var v := Verdicts(env, s);
    var x :| Inside(env, x) && AllCover(s, pick, x);
    var prior := s[..i];
    WindowPrefix(env, prior, s[i..]);
    assert prior + s[i..] == s;
    WindowIsMeet(env, prior, x);
    forall k | 0 <= k < i && Verdicts(env, prior)[k] ensures prior[k].Covers(x) {
      assert v[..i][k] == pick[..i][k];
    }
  }

  lemma {:induction false} FirstDifference(a: seq<bool>, b: seq<bool>) returns (i: nat)
    requires |a| == |b| && a != b
    ensures i < |a| && a[..i] == b[..i] && a[i] != b[i]
  {
    if a[0] != b[0] {
      i := 0;
    } else {
      assert a == [a[0]] + a[1..] && b == [b[0]] + b[1..];
      var k := FirstDifference(a[1..], b[1..]);
      i := k + 1;
      assert a[..i] == [a[0]] + a[1..][..k] && b[..i] == [b[0]] + b[1..][..k];
    }
  }

  ghost predicate DisjointFromEnvelope(env: Span, r: Request) {
    forall x :: Inside(env, x) ==> !r.Covers(x)
  }

  ghost predicate Disjoint(p: Request, r: Request) {
    forall x :: p.Covers(x) ==> !r.Covers(x)
  }

  /** The edge of a window is the envelope's own edge or that of one honored request. */
  lemma {:induction false} WindowEdges(env: Span, s: seq<Request>)
    ensures var g := Window(env, s);
            && (g.lo == env.lo || exists j :: 0 <= j < |s| && Accepts(env, s, j) && s[j].min == Fin(g.lo))
            && (g.hi == env.hi || exists j :: 0 <= j < |s| && Accepts(env, s, j) && s[j].max == Fin(g.hi))
  {
    if s != [] {
      var init, r := s[..|s| - 1], s[|s| - 1];
      WindowEdges(env, init);
      forall j | 0 <= j < |init| ensures Accepts(env, s, j) == Accepts(env, init, j) && s[j] == init[j] {
        assert init[..j] == s[..j];
      }
      var g, h := Window(env, init), Window(env, s);
      if h.lo != env.lo {
        if h.lo == g.lo {
          var j :| 0 <= j < |init| && Accepts(env, init, j) && init[j].min == Fin(g.lo);
          assert Accepts(env, s, j) && s[j].min == Fin(h.lo);
        } else {
          assert Accepts(env, s, |s| - 1) && s[|s| - 1].min == Fin(h.lo);
        }
      }
      if h.hi != env.hi {
        if h.hi == g.hi {
          var j :| 0 <= j < |init| && Accepts(env, init, j) && init[j].max == Fin(g.hi);
          assert Accepts(env, s, j) && s[j].max == Fin(h.hi);
        } else {
          assert Accepts(env, s, |s| - 1) && s[|s| - 1].max == Fin(h.hi);
        }
      }
    }
  }

  /** A rejection always has one single culprit: the envelope, or one honored request of
      higher rank that shares no operating point with the rejected one. */
  lemma RejectionHasCulprit(env: Span, s: seq<Request>, i: nat)
    requires env.lo <= env.hi && i < |s| && s[i].Accepted()
    requires !Accepts(env, s, i)
    ensures DisjointFromEnvelope(env, s[i]) ||
            exists j :: 0 <= j < i && Accepts(env, s, j) && Disjoint(s[j], s[i])
  {
    var prior := s[..i];
    WindowNonEmpty(env, prior);
    WindowEdges(env, prior);
    var g := Window(env, prior);
    forall j | 0 <= j < i ensures Accepts(env, prior, j) == Accepts(env, s, j) && prior[j] == s[j] {
      assert prior[..j] == s[..j];
    }
    if !Le(s[i].min, Fin(g.hi)) {
      if g.hi != env.hi {
        var j :| 0 <= j < i && Accepts(env, prior, j) && prior[j].max == Fin(g.hi);
        assert Accepts(env, s, j) && Disjoint(s[j], s[i]);
      }
    } else {
      assert !Le(Fin(g.lo), s[i].max);
      if g.lo != env.lo {
        var j :| 0 <= j < i && Accepts(env, prior, j) && prior[j].min == Fin(g.lo);
        assert Accepts(env, s, j) && Disjoint(s[j], s[i]);
      }
    }
  }

  /** Requests of lower rank change neither a higher one's verdict nor what it left. */
  lemma LowerRanksNeverMatter(env: Span, s: seq<Request>, t: seq<Request>, i: nat)
    requires i < |s|
    ensures Accepts(env, s + t, i) == Accepts(env, s, i)
    ensures Window(env, (s + t)[..i]) == Window(env, s[..i])
  {
    assert (s + t)[..i] == s[..i];
  }

  // --- target, deadband, ramp ------------------------------------------------

  datatype Goal = Goal(target: real, owner: string, forced: bool)

  /** The preference of the best-ranked honored request that has one. */
  function FirstTarget(honored: seq<Request>): (first: Option<Request>)
    ensures first.Some? ==> first.value.target.Some?
  {
    if honored == [] then None
    else if honored[0].target.Some? then Some(honored[0])
    else FirstTarget(honored[1..])
  }

  function Land(v: Ext, g: Span): real {
    ClampE(v, Fin(g.lo), Fin(g.hi)).w
  }

  function GoalOf(cfg: Config, ranked: seq<Request>, last: Option<real>): Goal {
    var g := Window(Envelope(cfg), ranked);
    var first := FirstTarget(Honored(Envelope(cfg), ranked));
    if first.Some? then Goal(Land(first.value.target.value, g), first.value.requester, first.value.priority == 0)
    else if ranked != [] && last.Some? then Goal(Land(Fin(last.value), g), HOLD, false)
    else Goal(Land(Fin(cfg.defaultW), g), DEFAULT, false)
  }

  /** Deadband, then the asymmetric ramp; a forced value and the first ever skip both. */
  function Move(cfg: Config, cycle: real, last: Option<real>, target: real, forced: bool): real {
    if forced || last.None? then target
    else
      var x := last.value;
      var settled := if Abs(target - x) < cfg.deadband then x else target;
      var delta := settled - x;
      var maxStep := (if delta >= 0.0 then cfg.rampUp else cfg.rampDown) * cycle;
      x + Clamp(delta, -maxStep, maxStep)
  }

  function Resolved(cfg: Config, cycle: real, requests: seq<Request>, last: Option<real>): real {
    var goal := GoalOf(cfg, Sort(requests), last);
    Move(cfg, cycle, last, goal.target, goal.forced)
  }

  lemma {:induction false} FirstTargetMember(honored: seq<Request>)
    ensures var f := FirstTarget(honored);
            if f.Some? then
              exists i :: 0 <= i < |honored| && honored[i] == f.value && f.value.target.Some? &&
                          forall j :: 0 <= j < i ==> honored[j].target.None?
            else forall j :: 0 <= j < |honored| ==> honored[j].target.None?
  {
    if honored != [] && honored[0].target.None? {
      FirstTargetMember(honored[1..]);
      assert forall j :: 0 < j < |honored| ==> honored[j] == honored[1..][j - 1];
      if FirstTarget(honored).Some? {
        var i :| 0 <= i < |honored| - 1 && honored[1..][i] == FirstTarget(honored).value &&
                 forall j :: 0 <= j < i ==> honored[1..][j].target.None?;
        assert honored[i + 1] == FirstTarget(honored).value;
      }
    }
  }

  /** The verdicts noted over what was noted before; the last one of each requester stays. */
  function Noted(before: map<string, bool>, env: Span, s: seq<Request>): map<string, bool> {
    if s == [] then before
    else
      var init := s[..|s| - 1];
      Noted(before, env, init)[s[|s| - 1].requester := Fits(Window(env, init), s[|s| - 1])]
  }

  /** The last verdict of each requester present. */
  function Marks(env: Span, s: seq<Request>): map<string, bool> {
    Noted(map[], env, s)
  }

  lemma {:induction false} MarkedNames(before: map<string, bool>, env: Span, s: seq<Request>, name: string)
    ensures name in Marks(env, s) <==> exists i :: 0 <= i < |s| && s[i].requester == name
    ensures name in Marks(env, s) ==> name in Noted(before, env, s) && Noted(before, env, s)[name] == Marks(env, s)[name]
  {
    if s != [] {
      var init := s[..|s| - 1];
      MarkedNames(before, env, init, name);
      if name in Marks(env, init) {
        var i :| 0 <= i < |init| && init[i].requester == name;
        assert s[i].requester == name;
      }
    }
  }

  /** Dropping the requesters not seen leaves the marks of this cycle alone. */
  lemma NotedThenForgotten(before: map<string, bool>, env: Span, s: seq<Request>)
    ensures (map name | name in Noted(before, env, s) && name in Marks(env, s).Keys :: Noted(before, env, s)[name])
            == Marks(env, s)
  {
    forall name | name in Marks(env, s)
      ensures name in Noted(before, env, s) && Noted(before, env, s)[name] == Marks(env, s)[name]
    {
      MarkedNames(before, env, s, name);
    }
  }

  /** With one request a requester, the marks are the verdicts. */
  lemma {:induction false} MarksAreVerdicts(env: Span, s: seq<Request>, i: nat)
    requires DistinctRequesters(s) && i < |s|
    ensures s[i].requester in Marks(env, s) && Marks(env, s)[s[i].requester] == Accepts(env, s, i)
  {
    var init := s[..|s| - 1];
    if i < |s| - 1 {
      MarksAreVerdicts(env, init, i);
      assert init[..i] == s[..i];
    }
  }

  // --- alarms for rejected requests --------------------------------------------

  function AlarmId(channel: string, requester: string): Ident {
    Ident("allocation", "alloc." + channel + "." + requester)
  }

  predicate OwnId(channel: string, id: Ident) {
    id.source == "allocation" && "alloc." + channel + "." <= id.key
  }

  lemma AlarmIdInjective(channel: string, a: string, b: string)
    ensures AlarmId(channel, a) == AlarmId(channel, b) ==> a == b
    ensures OwnId(channel, AlarmId(channel, a))
  {
    var prefix := "alloc." + channel + ".";
    assert (prefix + a)[|prefix|..] == a && (prefix + b)[|prefix|..] == b;
  }

  lemma PrefixesOfOne(p: string, a: string, q: string, b: string)
    requires p + a == q + b
    ensures p <= q || q <= p
  {
    if |p| <= |q| {
      assert p == (p + a)[..|p|] == (q + b)[..|p|] == q[..|p|];
    } else {
      assert q == (q + b)[..|q|] == (p + a)[..|q|] == p[..|q|];
    }
  }

  /** Two channels' alarm keys can collide exactly if one dotted name starts the other. */
  lemma AlarmKeysApart(c: string, d: string)
    ensures (exists a, b :: AlarmId(c, a) == AlarmId(d, b)) <==> c + "." <= d + "." || d + "." <= c + "."
  {
    var p, q := c + ".", d + ".";
    forall a, b ensures AlarmId(c, a) == AlarmId(d, b) <==> p + a == q + b {
      assert "alloc." + c + "." + a == "alloc." + (p + a);
      assert "alloc." + d + "." + b == "alloc." + (q + b);
      assert ("alloc." + (p + a))[6..] == p + a && ("alloc." + (q + b))[6..] == q + b;
    }
    if p <= q {
      assert p + q[|p|..] == q + "";
      assert AlarmId(c, q[|p|..]) == AlarmId(d, "");
    } else if q <= p {
      assert p + "" == q + p[|q|..];
      assert AlarmId(c, "") == AlarmId(d, p[|q|..]);
    } else {
      forall a, b ensures p + a != q + b {
        if p + a == q + b { PrefixesOfOne(p, a, q, b); }
      }
    }
  }

  /** The latched alarms say which requesters a channel has rejected. */
  ghost predicate AlarmsTell(latched: set<Ident>, channel: string, verdicts: map<string, bool>) {
    forall name :: AlarmId(channel, name) in latched <==> name in verdicts && !verdicts[name]
  }

  /** Some requesters of the two channels share an alarm. */
  ghost predicate KeysCollide(c: string, d: string) {
    exists a, b :: AlarmId(c, a) == AlarmId(d, b)
  }

  function RejectedIds(channel: string, verdicts: map<string, bool>): set<Ident> {
    set name | name in verdicts && !verdicts[name] :: AlarmId(channel, name)
  }

  ghost predicate BothTold(c: string, d: string, v: map<string, bool>, w: map<string, bool>) {
    exists latched :: AlarmsTell(latched, c, v) && AlarmsTell(latched, d, w)
  }

  lemma ApartTold(c: string, d: string, v: map<string, bool>, w: map<string, bool>)
    requires !KeysCollide(c, d)
    ensures BothTold(c, d, v, w)
  {
    var latched := RejectedIds(c, v) + RejectedIds(d, w);
    forall name ensures AlarmId(c, name) in latched <==> name in v && !v[name] {
      forall other ensures AlarmId(c, name) == AlarmId(c, other) ==> name == other { AlarmIdInjective(c, name, other); }
    }
    forall name ensures AlarmId(d, name) in latched <==> name in w && !w[name] {
      forall other ensures AlarmId(d, name) == AlarmId(d, other) ==> name == other { AlarmIdInjective(d, name, other); }
    }
    assert AlarmsTell(latched, c, v) && AlarmsTell(latched, d, w);
  }

  /** One journal can tell every pair of two channels' verdicts exactly if their keys are apart:
      otherwise a requester rejected on one is shown, or cleared, as another on the other. */
  lemma OneJournalTellsIff(c: string, d: string)
    ensures (forall v, w :: BothTold(c, d, v, w)) <==> !(c + "." <= d + "." || d + "." <= c + ".")
  {
    AlarmKeysApart(c, d);
    if KeysCollide(c, d) {
      var a, b :| AlarmId(c, a) == AlarmId(d, b);
      var v, w := map[a := false], map[b := true];
      forall latched ensures !(AlarmsTell(latched, c, v) && AlarmsTell(latched, d, w)) {
        assert AlarmId(c, a) in latched <==> AlarmId(d, b) in latched;
      }
      assert !BothTold(c, d, v, w);
    } else {
      forall v, w ensures BothTold(c, d, v, w) { ApartTold(c, d, v, w); }
    }
  }

  class ChannelArbiter {
    const cfg: Config
    const cycle: real
    const journal: EventJournal?

    var last: Option<real>
    var honored: map<string, bool>
    var owner: Option<string>

    constructor (cfg: Config, cycle: real, journal: EventJournal?)
      ensures this.cfg == cfg && this.cycle == cycle && this.journal == journal
      ensures last == None && honored == map[] && owner == None
    {
      this.cfg, this.cycle, this.journal := cfg, cycle, journal;
      last, honored, owner := None, map[], None;
    }

    ghost function Journals(): set<object>
    {
      if journal == null then {} else {journal}
    }

    /** An alarm stands exactly for the requesters last seen rejected. */
    ghost predicate AlarmsAgree()
      reads `honored, journal
    {
      journal != null ==>
        && journal.Valid()
        && forall name :: AlarmId(cfg.channel, name) in journal.Latched() <==> name in honored && !honored[name]
    }

    /** Other alarms in a shared journal are left alone. */
    twostate predicate OthersKept()
      reads journal
    {
      journal != null ==>
        forall id :: !OwnId(cfg.channel, id) ==> (id in journal.Latched() <==> id in old(journal.Latched()))
    }

    method NoteHonored(requester: string, ok: bool, now: real)
      requires AlarmsAgree()
      modifies this`honored, Journals()
      ensures AlarmsAgree() && OthersKept()
      ensures honored == old(honored)[requester := ok]
    {
      var prev := if requester in honored then Some(honored[requester]) else None;
      honored := honored[requester := ok];
      if prev != Some(ok) {
        if !ok {
          if journal != null {
            var _ := journal.RaiseAlarm(AlarmId(cfg.channel, requester), "rejected", Warning, now);
          }
        } else if prev.Some? {
          if journal != null {
            var _ := journal.Clear(AlarmId(cfg.channel, requester), "cleared");
          }
        }
      }
      forall name ensures AlarmId(cfg.channel, name) == AlarmId(cfg.channel, requester) ==> name == requester {
        AlarmIdInjective(cfg.channel, name, requester);
      }
    }

    method ForgetAbsent(seen: set<string>, now: real)
      requires AlarmsAgree()
      modifies this`honored, Journals()
      ensures AlarmsAgree() && OthersKept()
      ensures honored == map name | name in old(honored) && name in seen :: old(honored)[name]
    {
      var gone := set name | name in honored && name !in seen;
      while gone != {}
        invariant gone <= old(honored).Keys - seen
        invariant forall name :: name in honored <==> name in old(honored) && (name in seen || name in gone)
        invariant forall name :: name in honored ==> honored[name] == old(honored)[name]
        invariant AlarmsAgree() && OthersKept()
      {
        var name :| name in gone;
        forall other ensures AlarmId(cfg.channel, other) == AlarmId(cfg.channel, name) ==> other == name {
          AlarmIdInjective(cfg.channel, other, name);
        }
        if journal != null && honored[name] == false {
          var _ := journal.Clear(AlarmId(cfg.channel, name), "cleared");
        }
        honored := honored - {name};
        gone := gone - {name};
      }
    }

    method Resolve(requests: seq<Request>, now: real) returns (value: real)
      requires AlarmsAgree()
      modifies `last, `owner, `honored, Journals()
      ensures AlarmsAgree() && OthersKept()
      ensures value == Resolved(cfg, cycle, requests, old(last))
      ensures last == Some(value)
      ensures honored == Marks(Envelope(cfg), Sort(requests))
      ensures owner == Some(GoalOf(cfg, Sort(requests), old(last)).owner)
    {
      var ranked := Sort(requests);
      var accepted := Intersect(ranked, now);
      var g := Window(Envelope(cfg), ranked);
      var target, origin, forced := PickTarget(ranked, accepted, g);
      value := Approach(target, forced);
      if owner != Some(origin) {
        owner := Some(origin);
      }
      last := Some(value);
    }

    /** Deadband, then ramp. */
    method Approach(goal: real, forced: bool) returns (value: real)
      ensures value == Move(cfg, cycle, last, goal, forced)
    {
      var target := goal;
      if last.Some? && !forced && Abs(target - last.value) < cfg.deadband {
        target := last.value;
      }
      if forced || last.None? {
        value := target;
      } else {
        var delta := target - last.value;
        var maxStep := (if delta >= 0.0 then cfg.rampUp else cfg.rampDown) * cycle;
        value := last.value + Clamp(delta, -maxStep, maxStep);
      }
    }

    method Intersect(ranked: seq<Request>, now: real) returns (accepted: seq<Request>)
      requires AlarmsAgree()
      modifies this`honored, Journals()
      ensures AlarmsAgree() && OthersKept()
      ensures accepted == Honored(Envelope(cfg), ranked)
      ensures honored == Marks(Envelope(cfg), ranked)
    {
      var g := Envelope(cfg);
      var seen := {};
      accepted := [];
      for i := 0 to |ranked|
        invariant AlarmsAgree() && OthersKept()
        invariant g == Window(Envelope(cfg), ranked[..i])
        invariant accepted == Honored(Envelope(cfg), ranked[..i])
        invariant seen == Marks(Envelope(cfg), ranked[..i]).Keys
        invariant honored == Noted(old(honored), Envelope(cfg), ranked[..i])
      {
        var r := ranked[i];
        seen := seen + {r.requester};
        assert ranked[..i + 1][..i] == ranked[..i];
        var ok := Fits(g, r);
        if ok {
          g := Narrow(g, r);
          accepted := accepted + [r];
        }
        NoteHonored(r.requester, ok, now);
      }
      assert ranked[..|ranked|] == ranked;
      NotedThenForgotten(old(honored), Envelope(cfg), ranked);
      ForgetAbsent(seen, now);
    }

    method PickTarget(ranked: seq<Request>, accepted: seq<Request>, g: Span)
      returns (target: real, origin: string, forced: bool)
      requires g == Window(Envelope(cfg), ranked) && accepted == Honored(Envelope(cfg), ranked)
      ensures Goal(target, origin, forced) == GoalOf(cfg, ranked, last)
    {
      forced := false;
      if ranked == [] {
        target, origin := Land(Fin(cfg.defaultW), g), DEFAULT;
        return;
      }
      for i := 0 to |accepted|
        invariant FirstTarget(accepted) == FirstTarget(accepted[i..])
      {
        if accepted[i].target.Some? {
          target, origin := Land(accepted[i].target.value, g), accepted[i].requester;
          forced := accepted[i].priority == 0;
          return;
        }
      }
      if last.Some? {
        target, origin := Land(Fin(last.value), g), HOLD;
      } else {
        target, origin := Land(Fin(cfg.defaultW), g), DEFAULT;
      }
    }
  }
}
