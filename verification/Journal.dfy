/** The alarm journal: latched alarms against the lines appended for them
    (src/pyems/events.py). Wall-clock stamps are left out of the records. */
module Journal {
  import opened Num

  /** Alarms latch by source and key. */
  datatype Ident = Ident(source: string, key: string)

  datatype Severity = Info | Warning | Alarming

  datatype Alarm = Alarm(id: Ident, severity: Severity, message: string, since: real)

  datatype Kind = Raised | Cleared

  datatype Line = Line(kind: Kind, id: Ident, severity: Severity, message: string)

  /** What a reader of the file can know of a standing alarm. */
  datatype Standing = Standing(id: Ident, severity: Severity, message: string)

  function StandingOf(a: Alarm): Standing {
    Standing(a.id, a.severity, a.message)
  }

  function View(active: seq<Alarm>): (v: seq<Standing>)
    ensures |v| == |active| && forall i :: 0 <= i < |v| ==> v[i] == StandingOf(active[i])
  {
    seq(|active|, i requires 0 <= i < |active| => StandingOf(active[i]))
  }

  ghost predicate HasId(s: seq<Standing>, id: Ident) {
    exists i :: 0 <= i < |s| && s[i].id == id
  }

  /** The list without the entry for id, everything else in the same order. */
  function Without(s: seq<Standing>, id: Ident): seq<Standing> {
    if s == [] then []
    else if s[0].id == id then s[1..]
    else [s[0]] + Without(s[1..], id)
  }

  function SeverityIn(s: seq<Standing>, id: Ident): Option<Severity> {
    if s == [] then None else if s[0].id == id then Some(s[0].severity) else SeverityIn(s[1..], id)
  }

  /** Replays the file from the start: a raised line must start an alarm that is not
      standing, a cleared line must end one that is, with its own severity. Anything
      else in the file makes the replay None. */
  function Replay(lines: seq<Line>): Option<seq<Standing>> {
    if lines == [] then Some([])
    else
      match Replay(lines[..|lines| - 1])
      case None => None
      case Some(standing) =>
        var line := lines[|lines| - 1];
        var severity := SeverityIn(standing, line.id);
        match line.kind
        case Raised =>
          if severity.Some? then None
          else Some(standing + [Standing(line.id, line.severity, line.message)])
        case Cleared =>
          if severity == Some(line.severity) then Some(Without(standing, line.id)) else None
  }

  lemma {:induction false} SeverityFinds(s: seq<Standing>, id: Ident)
    ensures SeverityIn(s, id).Some? <==> HasId(s, id)
  {
    if s != [] {
      SeverityFinds(s[1..], id);
      assert s == [s[0]] + s[1..];
      if HasId(s, id) && s[0].id != id {
        var i :| 0 <= i < |s| && s[i].id == id;
        assert s[1..][i - 1].id == id;
      } else if HasId(s[1..], id) {
        var i :| 0 <= i < |s[1..]| && s[1..][i].id == id;
        assert s[i + 1].id == id;
      }
    }
  }

  lemma {:induction false} SeverityAppend(s: seq<Standing>, e: Standing, id: Ident)
    ensures SeverityIn(s + [e], id) ==
            if SeverityIn(s, id).Some? then SeverityIn(s, id)
            else if e.id == id then Some(e.severity) else None
  {
    if s == [] {
      assert s + [e] == [e];
    } else {
      SeverityAppend(s[1..], e, id);
      assert (s + [e])[1..] == s[1..] + [e];
    }
  }

  lemma {:induction false} SeverityWithout(s: seq<Standing>, gone: Ident, id: Ident)
    requires gone != id
    ensures SeverityIn(Without(s, gone), id) == SeverityIn(s, id)
  {
    if s != [] && s[0].id != gone {
      SeverityWithout(s[1..], gone, id);
      assert ([s[0]] + Without(s[1..], gone))[1..] == Without(s[1..], gone);
    }
  }

  ghost predicate UniqueIds(s: seq<Standing>) {
    forall i, j :: 0 <= i < j < |s| ==> s[i].id != s[j].id
  }

  lemma {:induction false} WithoutForgets(s: seq<Standing>, gone: Ident)
    requires UniqueIds(s)
    ensures SeverityIn(Without(s, gone), gone) == None
    ensures UniqueIds(Without(s, gone))
    ensures forall e :: e in Without(s, gone) ==> e in s
  {
    if s != [] {
      if s[0].id == gone {
        SeverityFinds(s[1..], gone);
      } else {
        WithoutForgets(s[1..], gone);
        var t := Without(s[1..], gone);
        assert ([s[0]] + t)[1..] == t;
        forall j | 0 <= j < |t| ensures t[j].id != s[0].id {
          assert t[j] in s[1..];
        }
      }
    }
  }

  lemma {:induction false} ReplayUnique(lines: seq<Line>)
    requires Replay(lines).Some?
    ensures UniqueIds(Replay(lines).value)
  {
    if lines != [] {
      var init, line := lines[..|lines| - 1], lines[|lines| - 1];
      ReplayUnique(init);
      var standing := Replay(init).value;
      SeverityFinds(standing, line.id);
      if line.kind.Cleared? { WithoutForgets(standing, line.id); }
    }
  }

  /** The lines of one alarm identity, in file order. */
  function LinesOf(lines: seq<Line>, id: Ident): seq<Line> {
    if lines == [] then []
    else
      var last := lines[|lines| - 1];
      LinesOf(lines[..|lines| - 1], id) + (if last.id == id then [last] else [])
  }

  /** raised, cleared, raised, ...: and each cleared line has the severity of the raise before it. */
  ghost predicate Alternates(own: seq<Line>) {
    && (forall k :: 0 <= k < |own| ==> own[k].kind == if k % 2 == 0 then Raised else Cleared)
    && (forall k :: 0 <= k < |own| && k % 2 == 1 ==> own[k].severity == own[k - 1].severity)
  }

  lemma AlternatesExtend(own: seq<Line>, line: Line)
    requires Alternates(own)
    requires line.kind == if |own| % 2 == 0 then Raised else Cleared
    requires |own| % 2 == 1 ==> line.severity == own[|own| - 1].severity
    ensures Alternates(own + [line])
  {}

  /** In every file the journal can write, each alarm's lines strictly alternate, and
      the alarm stands exactly after a raise with no clear behind it. */
  lemma {:induction false} LinesAlternate(lines: seq<Line>, id: Ident)
    requires Replay(lines).Some?
    ensures var own := LinesOf(lines, id);
            && Alternates(own)
            && SeverityIn(Replay(lines).value, id) ==
               if |own| % 2 == 1 then Some(own[|own| - 1].severity) else None
  {
    if lines != [] {
      var init, line := lines[..|lines| - 1], lines[|lines| - 1];
      LinesAlternate(init, id);
      var standing := Replay(init).value;
      if line.id == id { AlternatesExtend(LinesOf(init, id), line); }
      if line.kind.Raised? {
        SeverityAppend(standing, Standing(line.id, line.severity, line.message), id);
      } else if line.id == id {
        ReplayUnique(init);
        WithoutForgets(standing, id);
      } else {
        SeverityWithout(standing, line.id, id);
      }
    }
  }

  class EventJournal {
    /** The latched alarms, oldest first: a dictionary in insertion order. */
    var active: seq<Alarm>
    /** The file, one record a line. */
    var lines: seq<Line>

    /** The banner is always what replaying the file would show. */
    ghost predicate Valid()
      reads this
    {
      Replay(lines) == Some(View(active))
    }

    ghost function Latched(): set<Ident>
      reads this`active
    {
      set a | a in active :: a.id
    }

    constructor ()
      ensures Valid()
      ensures active == [] && lines == []
    {
      active, lines := [], [];
    }

    method Find(id: Ident) returns (found: bool, at: nat)
      ensures found == (id in Latched())
      ensures found ==> at < |active| && active[at].id == id && forall i :: 0 <= i < at ==> active[i].id != id
    {
      found, at := false, 0;
      while at < |active|
        invariant at <= |active|
        invariant forall i :: 0 <= i < at ==> active[i].id != id
      {
        if active[at].id == id {
          assert active[at] in active;
          return true, at;
        }
        at := at + 1;
      }
    }

    method RaiseAlarm(id: Ident, message: string, severity: Severity, at: real) returns (raised: bool)
      requires Valid()
      modifies this
      ensures Valid()
      ensures raised == (id !in old(Latched()))
      ensures !raised ==> active == old(active) && lines == old(lines)
      ensures raised ==> active == old(active) + [Alarm(id, severity, message, at)]
      ensures raised ==> lines == old(lines) + [Line(Raised, id, severity, message)]
      ensures Latched() == old(Latched()) + {id}
    {
      var known, _ := Find(id);
      if known { return false; }
      AddedAlarm(lines, active, Alarm(id, severity, message, at));
      active := active + [Alarm(id, severity, message, at)];
      lines := lines + [Line(Raised, id, severity, message)];
      hide Replay, View;
      return true;
    }

    method Clear(id: Ident, message: string) returns (cleared: bool)
      requires Valid()
      modifies this
      ensures Valid()
      ensures cleared == (id in old(Latched()))
      ensures !cleared ==> active == old(active) && lines == old(lines)
      ensures cleared ==>
                exists a :: a in old(active) && a.id == id && lines == old(lines) + [Line(Cleared, id, a.severity, message)]
      ensures cleared ==> View(active) == Without(old(View(active)), id)
      ensures Latched() == old(Latched()) - {id}
    {
      var known, at := Find(id);
      if !known { return false; }
      var alarm := active[at];
      ReplayUnique(lines);
      RemovedAt(active, at, id);
      active := active[..at] + active[at + 1..];
      lines := lines + [Line(Cleared, id, alarm.severity, message)];
      assert lines[..|lines| - 1] == old(lines);
      hide UniqueIds, Without, SeverityIn, View;
      return true;
    }

    /** A fresh copy of the standing alarms, oldest first. */
    method ActiveAlarms() returns (alarms: seq<Alarm>)
      requires Valid()
      ensures Replay(lines) == Some(View(alarms))
    {
      alarms := active;
    }
  }

  /** A line raising an alarm that does not stand adds it to the banner. */
  lemma AddedAlarm(lines: seq<Line>, active: seq<Alarm>, a: Alarm)
    requires Replay(lines) == Some(View(active)) && a.id !in (set x | x in active :: x.id)
    ensures Replay(lines + [Line(Raised, a.id, a.severity, a.message)]) == Some(View(active + [a]))
    ensures (set x | x in active + [a] :: x.id) == (set x | x in active :: x.id) + {a.id}
  {
    var more := lines + [Line(Raised, a.id, a.severity, a.message)];
    assert more[..|more| - 1] == lines;
    SeverityFinds(View(active), a.id);
    assert forall i :: 0 <= i < |active| ==> active[i] in active;
    assert View(active + [a]) == View(active) + [StandingOf(a)];
    hide SeverityIn;
  }

  /** Dropping the one alarm of an identity, wherever it stands. */
  lemma RemovedAt(active: seq<Alarm>, at: nat, id: Ident)
    requires at < |active| && active[at].id == id && UniqueIds(View(active))
    ensures var rest := active[..at] + active[at + 1..];
            && View(rest) == Without(View(active), id) && SeverityIn(View(active), id) == Some(active[at].severity)
            && (set a | a in rest :: a.id) == (set a | a in active :: a.id) - {id}
  {
    var v, rest := View(active), active[..at] + active[at + 1..];
    assert forall i :: 0 <= i < |active| && i != at ==> v[i].id != id;
    WithoutAt(v, at, id);
    assert View(rest) == v[..at] + v[at + 1..];
    RemovedIds(active, at, id);
    hide Without, SeverityIn, UniqueIds;
  }

  lemma RemovedIds(active: seq<Alarm>, at: nat, id: Ident)
    requires at < |active| && active[at].id == id && forall i :: 0 <= i < |active| && i != at ==> active[i].id != id
    ensures (set a | a in active[..at] + active[at + 1..] :: a.id) == (set a | a in active :: a.id) - {id}
  {
    var rest := active[..at] + active[at + 1..];
    forall a | a in active && a.id != id ensures a in rest {
      var i :| 0 <= i < |active| && active[i] == a;
      assert rest[if i < at then i else i - 1] == a;
    }
  }

  lemma {:induction false} WithoutAt(s: seq<Standing>, at: nat, id: Ident)
    requires at < |s| && s[at].id == id && forall i :: 0 <= i < at ==> s[i].id != id
    ensures Without(s, id) == s[..at] + s[at + 1..]
    ensures SeverityIn(s, id) == Some(s[at].severity)
  {
    if at > 0 {
      WithoutAt(s[1..], at - 1, id);
      assert s[1..][..at - 1] == s[1..at];
      assert s[..at] == [s[0]] + s[1..at];
      assert s[1..][at..] == s[at + 1..];
    }
  }
}
