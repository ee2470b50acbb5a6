/** Whole runs of the scan cycle against the log of all that its controllers have posted: the board is
    that of the log, and every channel's setpoint is what its arbiter makes of it, cycle after cycle
    (src/pyems/scheduler.py, src/pyems/allocation/request.py, src/pyems/allocation/allocator.py). */
module Ledger {
  import opened Num
  import opened Requests
  import opened Board
  import opened Channels
  import opened Arbitration
  import opened Allocator
  import opened Safety
  import opened Setpoints
  import opened Scan

  lemma {:induction false} OpsTogether(claims: map<string, Claims>, a: seq<Op>, b: seq<Op>)
    ensures AfterOps(claims, a + b) == AfterOps(AfterOps(claims, a), b)
  {
    hide Board.Apply;
    if b == [] {
      assert a + b == a;
    } else {
      assert (a + b)[..|a + b| - 1] == a + b[..|b| - 1];
      OpsTogether(claims, a, b[..|b| - 1]);
    }
  }

  // --- one controller -----------------------------------------------------------------------------

  /** What a controller can do without an error. */
  predicate Allowed(tags: Tags, channels: set<string>, e: Effect) {
    match e
    case PostClaim(ch, _) => ch in channels
    case DropClaim(ch, _) => ch in channels
    case SetTag(name, _) => Commandable(tags, name)
    case Raise => false
  }

  /** How many effects come before the first error. */
  function UpToError(tags: Tags, channels: set<string>, script: seq<Effect>): (k: nat)
    ensures k <= |script| && forall i :: 0 <= i < k ==> Allowed(tags, channels, script[i])
    ensures k < |script| ==> !Allowed(tags, channels, script[k])
  {
    if script == [] || !Allowed(tags, channels, script[0]) then 0 else 1 + UpToError(tags, channels, script[1..])
  }

  function OpsOf(script: seq<Effect>, now: real): seq<Op> {
    if script == [] then []
    else
      (match script[0]
       case PostClaim(ch, r) => [Post(ch, r, now)]
       case DropClaim(ch, requester) => [Withdraw(ch, requester)]
       case _ => [])
      + OpsOf(script[1..], now)
  }

  function TagsSet(tags: Tags, script: seq<Effect>): Tags {
    if script == [] then tags
    else TagsSet(if script[0].SetTag? then Commanded(tags, script[0].name, script[0].value) else tags, script[1..])
  }

  lemma SameAllowed(tags: Tags, after: Tags, channels: set<string>, script: seq<Effect>)
    requires SameChannels(tags, after)
    ensures UpToError(after, channels, script) == UpToError(tags, channels, script)
    decreases |script|
  {
    if script != [] {
      assert Allowed(after, channels, script[0]) == Allowed(tags, channels, script[0]);
      SameAllowed(tags, after, channels, script[1..]);
    }
  }

  lemma ActedLogged(tags: Tags, claims: map<string, Claims>, e: Effect, now: real)
    ensures var o := Acted(tags, claims, e, now);
            && (o.ok <==> Allowed(tags, claims.Keys, e))
            && (!o.ok ==> o.claims == claims && o.tags == tags)
            && (o.ok ==> o.claims == AfterOps(claims, OpsOf([e], now)) && o.tags == TagsSet(tags, [e]))
  {
    assert [e][1..] == [];
    match e
    case PostClaim(ch, r) => OneOp(claims, Post(ch, r, now));
    case DropClaim(ch, requester) => OneOp(claims, Withdraw(ch, requester));
    case _ =>
  }

  lemma OneOp(claims: map<string, Claims>, op: Op)
    ensures AfterOps(claims, [op]) == Board.Apply(claims, op)
  {
    assert [op][..0] == [];
  }

  lemma OpsFirst(script: seq<Effect>, now: real)
    requires script != []
    ensures OpsOf(script, now) == OpsOf([script[0]], now) + OpsOf(script[1..], now)
  {}

  /** A controller's effects land in order up to its first error, and none after. */
  lemma {:induction false} PlayedUpToError(tags: Tags, claims: map<string, Claims>, script: seq<Effect>, now: real)
    ensures var k, o := UpToError(tags, claims.Keys, script), Played(tags, claims, script, now);
            && o.claims == AfterOps(claims, OpsOf(script[..k], now)) && o.tags == TagsSet(tags, script[..k])
            && (o.ok <==> k == |script|)
  {
    hide Allowed, Acted, AfterOps, SameChannels;
    if script == [] {
      NoOps(claims, now);
    } else {
      var o, k := Acted(tags, claims, script[0], now), UpToError(tags, claims.Keys, script);
      ActedLogged(tags, claims, script[0], now);
      if o.ok {
        PlayedUpToError(o.tags, o.claims, script[1..], now);
        SameAllowed(tags, o.tags, claims.Keys, script[1..]);
        assert script[..k][1..] == script[1..][..k - 1];
        OpsFirst(script[..k], now);
        OpsTogether(claims, OpsOf([script[0]], now), OpsOf(script[..k][1..], now));
      } else {
        NoOps(claims, now);
      }
    }
  }

  lemma NoOps(claims: map<string, Claims>, now: real)
    ensures AfterOps(claims, OpsOf([], now)) == claims
  {}

  // --- one cycle --------------------------------------------------------------------------------------

  function GuardOps(guarded: seq<string>, pin: Request, tripped: bool, now: real): seq<Op> {
    seq(|guarded|, i requires 0 <= i < |guarded| =>
      if tripped then Post(guarded[i], pin, now) else Withdraw(guarded[i], SAFETY))
  }

  lemma {:induction false} GuardLogged(claims: map<string, Claims>, guarded: seq<string>, pin: Request, now: real)
    ensures PostedAll(claims, guarded, Claim(pin, now)) == AfterOps(claims, GuardOps(guarded, pin, true, now))
    ensures WithdrawnAll(claims, guarded, SAFETY) == AfterOps(claims, GuardOps(guarded, pin, false, now))
  {
    if guarded != [] {
      var k := |guarded| - 1;
      GuardLogged(claims, guarded[..k], pin, now);
      assert GuardOps(guarded, pin, true, now)[..k] == GuardOps(guarded[..k], pin, true, now);
      assert GuardOps(guarded, pin, false, now)[..k] == GuardOps(guarded[..k], pin, false, now);
    }
  }

  /** What one run of a controller posts and withdraws. */
  function RanOps(plan: Plan, w: World, r: Runner, c: Turn): seq<Op>
    requires Equipped(plan, w)
  {
    match r
    case Guardian => GuardOps(plan.guards.guarded, SafePin(plan.guards), Ran(plan, w, r, c).lock.tripped, c.now)
    case Normal(id) => OpsOf(ScriptOf(c, id)[..UpToError(w.tags, w.claims.Keys, ScriptOf(c, id))], c.now)
  }

  function FirstOps(plan: Plan, w: World, controllers: seq<Runner>, c: Turn, n: nat): seq<Op>
    requires Equipped(plan, w) && n <= |controllers|
  {
    if n == 0 then []
    else FirstOps(plan, w, controllers, c, n - 1) + RanOps(plan, RanFirst(plan, w, controllers, c, n - 1), controllers[n - 1], c)
  }

  function TaskOps(plan: Plan, w: World, i: nat, c: Turn): seq<Op>
    requires Equipped(plan, w) && i < |plan.tasks|
  {
    if c.now >= w.nextRuns[i] then FirstOps(plan, w, plan.tasks[i].controllers, c, |plan.tasks[i].controllers|) else []
  }

  function TasksOps(plan: Plan, w: World, c: Turn, n: nat): seq<Op>
    requires Equipped(plan, w) && n <= |plan.tasks|
  {
    if n == 0 then [] else TasksOps(plan, w, c, n - 1) + TaskOps(plan, TasksRan(plan, w, c, n - 1), n - 1, c)
  }

  lemma RanLogged(plan: Plan, w: World, r: Runner, c: Turn)
    requires Equipped(plan, w)
    ensures Ran(plan, w, r, c).claims == AfterOps(w.claims, RanOps(plan, w, r, c))
  {
    hide SafetyVerdict, AfterOps, Played, OpsOf, UpToError, PostedAll, WithdrawnAll, Equipped;
    match r
    case Guardian => GuardLogged(w.claims, plan.guards.guarded, SafePin(plan.guards), c.now);
    case Normal(id) => PlayedUpToError(w.tags, w.claims, ScriptOf(c, id), c.now);
  }

  lemma {:induction false} FirstLogged(plan: Plan, w: World, controllers: seq<Runner>, c: Turn, n: nat)
    requires Equipped(plan, w) && n <= |controllers|
    ensures RanFirst(plan, w, controllers, c, n).claims == AfterOps(w.claims, FirstOps(plan, w, controllers, c, n))
  {
    hide Ran, RanOps, Equipped, SameShape, Board.Apply;
    if n > 0 {
      var before := RanFirst(plan, w, controllers, c, n - 1);
      FirstLogged(plan, w, controllers, c, n - 1);
      RanLogged(plan, before, controllers[n - 1], c);
      OpsTogether(w.claims, FirstOps(plan, w, controllers, c, n - 1), RanOps(plan, before, controllers[n - 1], c));
    }
  }

  lemma TaskLogged(plan: Plan, w: World, i: nat, c: Turn)
    requires Equipped(plan, w) && i < |plan.tasks|
    ensures TaskRan(plan, w, i, c).claims == AfterOps(w.claims, TaskOps(plan, w, i, c))
  {
    FirstLogged(plan, w, plan.tasks[i].controllers, c, |plan.tasks[i].controllers|);
    hide RanFirst, FirstOps, Board.Apply;
  }

  /** What arbitration finds on the board is what the cycle's controllers left there. */
  lemma {:induction false} TasksLogged(plan: Plan, w: World, c: Turn, n: nat)
    requires Equipped(plan, w) && n <= |plan.tasks|
    ensures TasksRan(plan, w, c, n).claims == AfterOps(w.claims, TasksOps(plan, w, c, n))
  {
    hide TaskRan, TaskOps, Equipped, SameShape, Board.Apply;
    if n > 0 {
      var before := TasksRan(plan, w, c, n - 1);
      TasksLogged(plan, w, c, n - 1);
      TaskLogged(plan, before, n - 1, c);
      OpsTogether(w.claims, TasksOps(plan, w, c, n - 1), TaskOps(plan, before, n - 1, c));
    }
  }

  function QueryOps(cfgs: seq<Config>, now: real, n: nat): seq<Op>
    requires n <= |cfgs|
  {
    seq(n, i requires 0 <= i < n => Query(cfgs[i].channel, now))
  }

  lemma {:induction false} QueriesLogged(cfgs: seq<Config>, claims: map<string, Claims>, now: real, n: nat)
    requires DistinctChannels(cfgs) && n <= |cfgs| && forall i :: 0 <= i < |cfgs| ==> cfgs[i].channel in claims
    ensures Purged(cfgs, claims, now, n) == AfterOps(claims, QueryOps(cfgs, now, n))
  {
    hide Purge;
    if n > 0 {
      QueriesLogged(cfgs, claims, now, n - 1);
      assert QueryOps(cfgs, now, n)[..n - 1] == QueryOps(cfgs, now, n - 1);
      assert forall i :: 0 <= i < n - 1 ==> cfgs[i].channel != cfgs[n - 1].channel;
    }
  }

  // --- whole runs -----------------------------------------------------------------------------------------

  /** The world a cycle's controllers leave to arbitration. */
  ghost function Tasked(plan: Plan, w: World, c: Turn): (after: World)
    requires Equipped(plan, w)
    ensures Equipped(plan, after) && after.lasts == w.lasts
  {
    var read := w.(tags := ObservedAll(w.tags, c.inputs));
    TasksKeepLasts(plan, read, c, |plan.tasks|);
    TasksRan(plan, read, c, |plan.tasks|)
  }

  lemma RanKeepsLasts(plan: Plan, w: World, controllers: seq<Runner>, c: Turn, n: nat)
    requires Equipped(plan, w) && n <= |controllers|
    ensures RanFirst(plan, w, controllers, c, n).lasts == w.lasts
  {
    hide SafetyVerdict, SafetyClaims, Played;
    if n > 0 { RanKeepsLasts(plan, w, controllers, c, n - 1); }
  }

  lemma {:induction false} TasksKeepLasts(plan: Plan, w: World, c: Turn, n: nat)
    requires Equipped(plan, w) && n <= |plan.tasks|
    ensures TasksRan(plan, w, c, n).lasts == w.lasts
  {
    hide RanFirst, Equipped, SameShape;
    if n > 0 {
      TasksKeepLasts(plan, w, c, n - 1);
      RanKeepsLasts(plan, TasksRan(plan, w, c, n - 1), plan.tasks[n - 1].controllers, c, |plan.tasks[n - 1].controllers|);
    }
  }

  /** What a cycle's controllers post and withdraw, and what is asked of the board after them. */
  ghost function CycleOps(plan: Plan, w: World, c: Turn): seq<Op>
    requires Equipped(plan, w)
  {
    TasksOps(plan, w.(tags := ObservedAll(w.tags, c.inputs)), c, |plan.tasks|)
  }

  ghost function Log(plan: Plan, w: World, cycles: seq<Cycle>): seq<Op>
    requires Equipped(plan, w) && DistinctChannels(plan.cfgs)
    decreases |cycles|, 1
  {
    if cycles == [] then []
    else LogSoFar(plan, w, cycles) + QueryOps(plan.cfgs, cycles[|cycles| - 1].turn.now, |plan.cfgs|)
  }

  /** The log when the last cycle arbitrates. */
  ghost function LogSoFar(plan: Plan, w: World, cycles: seq<Cycle>): seq<Op>
    requires Equipped(plan, w) && DistinctChannels(plan.cfgs) && cycles != []
    decreases |cycles|, 0
  {
    var init := cycles[..|cycles| - 1];
    Log(plan, w, init) + CycleOps(plan, After(plan, w, init), cycles[|cycles| - 1].turn)
  }

  /** The claims the last cycle arbitrates on the i-th channel. */
  ghost function Round(plan: Plan, w: World, cycles: seq<Cycle>, i: nat): seq<Request>
    requires Equipped(plan, w) && DistinctChannels(plan.cfgs) && cycles != [] && i < |plan.cfgs|
  {
    var before, c := After(plan, w, cycles[..|cycles| - 1]), cycles[|cycles| - 1].turn;
    Listing(Tasked(plan, before, c).claims[plan.cfgs[i].channel], c.now)
  }

  ghost function Rounds(plan: Plan, w: World, cycles: seq<Cycle>, i: nat): seq<seq<Request>>
    requires Equipped(plan, w) && DistinctChannels(plan.cfgs) && i < |plan.cfgs|
  {
    if cycles == [] then [] else Rounds(plan, w, cycles[..|cycles| - 1], i) + [Round(plan, w, cycles, i)]
  }

  lemma SteppedLogged(plan: Plan, w: World, c: Cycle)
    requires Equipped(plan, w) && DistinctChannels(plan.cfgs)
    ensures Tasked(plan, w, c.turn).claims == AfterOps(w.claims, CycleOps(plan, w, c.turn))
    ensures Stepped(plan, w, c).claims ==
            AfterOps(w.claims, CycleOps(plan, w, c.turn) + QueryOps(plan.cfgs, c.turn.now, |plan.cfgs|))
  {
    var read, t := w.(tags := ObservedAll(w.tags, c.turn.inputs)), Tasked(plan, w, c.turn);
    SteppedClaims(plan, w, c);
    hide TasksRan, TasksOps, AfterOps, Purged, Stepped, QueryOps, DistinctChannels;
    TasksLogged(plan, read, c.turn, |plan.tasks|);
    assert forall i :: 0 <= i < |plan.cfgs| ==> plan.cfgs[i].channel in t.claims;
    QueriesLogged(plan.cfgs, t.claims, c.turn.now, |plan.cfgs|);
    OpsTogether(w.claims, CycleOps(plan, w, c.turn), QueryOps(plan.cfgs, c.turn.now, |plan.cfgs|));
  }

  lemma SteppedClaims(plan: Plan, w: World, c: Cycle)
    requires Equipped(plan, w) && DistinctChannels(plan.cfgs)
    ensures Stepped(plan, w, c).claims == Purged(plan.cfgs, Tasked(plan, w, c.turn).claims, c.turn.now, |plan.cfgs|)
    ensures forall i :: 0 <= i < |plan.cfgs| ==>
              Stepped(plan, w, c).lasts[i] ==
              Some(NextOf(plan.cfgs[i], plan.cycle, Tasked(plan, w, c.turn).claims, c.turn.now, w.lasts[i]))
  {
    hide TasksRan, NextOf, Purged, CommandedFirst;
  }

  /** Over every run the board is what the log of all posts, withdrawals and queries makes of it. */
  lemma {:induction false} BoardIsLogged(plan: Plan, w: World, cycles: seq<Cycle>)
    requires Equipped(plan, w) && DistinctChannels(plan.cfgs)
    ensures After(plan, w, cycles).claims == AfterOps(w.claims, Log(plan, w, cycles))
    ensures cycles != [] ==>
              Tasked(plan, After(plan, w, cycles[..|cycles| - 1]), cycles[|cycles| - 1].turn).claims ==
              AfterOps(w.claims, LogSoFar(plan, w, cycles))
  {
    hide Equipped, DistinctChannels, Stepped, Tasked, CycleOps, QueryOps, AfterOps;
    NoOps(w.claims, 0.0);
    if cycles != [] {
      var init, last := cycles[..|cycles| - 1], cycles[|cycles| - 1];
      var before := After(plan, w, init);
      BoardIsLogged(plan, w, init);
      SteppedLogged(plan, before, last);
      var ops, queries := CycleOps(plan, before, last.turn), QueryOps(plan.cfgs, last.turn.now, |plan.cfgs|);
      OpsInTurn(w.claims, Log(plan, w, init), ops, queries);
    }
  }

  lemma OpsInTurn(claims: map<string, Claims>, a: seq<Op>, b: seq<Op>, c: seq<Op>)
    ensures AfterOps(claims, a + b) == AfterOps(AfterOps(claims, a), b)
    ensures AfterOps(claims, a + b + c) == AfterOps(AfterOps(claims, a), b + c)
  {
    hide AfterOps;
    OpsTogether(claims, a, b);
    OpsTogether(claims, a, b + c);
    assert a + (b + c) == a + b + c;
  }

  /** Over every run each channel's setpoint is what its arbiter alone makes of the rounds of claims:
      whatever holds of an arbiter over all lists of requests holds of the channel. */
  lemma {:induction false} SetpointFollows(plan: Plan, w: World, cycles: seq<Cycle>, i: nat)
    requires Equipped(plan, w) && DistinctChannels(plan.cfgs) && i < |plan.cfgs|
    ensures After(plan, w, cycles).lasts[i] == LastAfter(plan.cfgs[i], plan.cycle, w.lasts[i], Rounds(plan, w, cycles, i))
  {
    hide Equipped, DistinctChannels, Stepped, Tasked, Resolved;
    if cycles != [] {
      var init, last := cycles[..|cycles| - 1], cycles[|cycles| - 1];
      SetpointFollows(plan, w, init, i);
      SteppedClaims(plan, After(plan, w, init), last);
      var rounds := Rounds(plan, w, cycles, i);
      assert rounds[..|rounds| - 1] == Rounds(plan, w, init, i);
    }
  }

  /** The gradient holds of the running system: over n cycles without a forced value a channel's setpoint
      rises and falls by at most n ramp steps, whatever its controllers claim. */
  lemma SystemGradient(plan: Plan, w: World, cycles: seq<Cycle>, i: nat, x: real, up: real, down: real)
    requires Equipped(plan, w) && DistinctChannels(plan.cfgs) && i < |plan.cfgs| && w.lasts[i] == Some(x)
    requires Sane(plan.cfgs[i], plan.cycle) && up == UpStep(plan.cfgs[i], plan.cycle) && down == DownStep(plan.cfgs[i], plan.cycle)
    requires Unforced(plan.cfgs[i], plan.cycle, Some(x), Rounds(plan, w, cycles, i))
    ensures var last := After(plan, w, cycles).lasts[i];
            last.Some? && -Times(|cycles|, down) <= last.value - x <= Times(|cycles|, up)
  {
    hide *;
    SetpointFollows(plan, w, cycles, i);
    AsManyRounds(plan, w, cycles, i);
    GradientAlways(plan.cfgs[i], plan.cycle, x, Rounds(plan, w, cycles, i), 0.0, 0.0, up, down);
  }

  lemma {:induction false} AsManyRounds(plan: Plan, w: World, cycles: seq<Cycle>, i: nat)
    requires Equipped(plan, w) && DistinctChannels(plan.cfgs) && i < |plan.cfgs|
    ensures |Rounds(plan, w, cycles, i)| == |cycles|
  {
    hide Equipped, DistinctChannels, Round, After;
    if cycles != [] { AsManyRounds(plan, w, cycles[..|cycles| - 1], i); }
  }

  // --- the log in time ------------------------------------------------------------------------------------

  ghost predicate AllAt(ops: seq<Op>, t: real) {
    forall i :: 0 <= i < |ops| && !ops[i].Withdraw? ==> ops[i].at == t
  }

  lemma {:induction false} OpsAt(script: seq<Effect>, now: real)
    ensures AllAt(OpsOf(script, now), now)
  {
    if script != [] { OpsAt(script[1..], now); }
  }

  lemma RanAt(plan: Plan, w: World, r: Runner, c: Turn)
    requires Equipped(plan, w)
    ensures AllAt(RanOps(plan, w, r, c), c.now)
  {
    hide Equipped, SafetyVerdict, SafetyClaims, OpsOf;
    if r.Normal? { OpsAt(ScriptOf(c, r.id)[..UpToError(w.tags, w.claims.Keys, ScriptOf(c, r.id))], c.now); }
  }

  lemma {:induction false} FirstAt(plan: Plan, w: World, controllers: seq<Runner>, c: Turn, n: nat)
    requires Equipped(plan, w) && n <= |controllers|
    ensures AllAt(FirstOps(plan, w, controllers, c, n), c.now)
  {
    hide Equipped, Ran, RanOps;
    if n > 0 {
      FirstAt(plan, w, controllers, c, n - 1);
      RanAt(plan, RanFirst(plan, w, controllers, c, n - 1), controllers[n - 1], c);
    }
  }

  lemma {:induction false} TasksAt(plan: Plan, w: World, c: Turn, n: nat)
    requires Equipped(plan, w) && n <= |plan.tasks|
    ensures AllAt(TasksOps(plan, w, c, n), c.now)
  {
    hide Equipped, FirstOps, TaskRan;
    if n > 0 {
      TasksAt(plan, w, c, n - 1);
      FirstAt(plan, TasksRan(plan, w, c, n - 1), plan.tasks[n - 1].controllers, c, |plan.tasks[n - 1].controllers|);
    }
  }

  lemma LaterOps(ops: seq<Op>, t: real, more: seq<Op>, u: real)
    requires Chronological(ops, t) && t <= u && AllAt(more, u)
    ensures Chronological(ops + more, u)
  {}

  /** The scan clock does not go back. */
  ghost predicate InOrder(cycles: seq<Cycle>) {
    forall i, j :: 0 <= i < j < |cycles| ==> cycles[i].turn.now <= cycles[j].turn.now
  }

  lemma {:induction false} LogInTime(plan: Plan, w: World, cycles: seq<Cycle>, now: real)
    requires Equipped(plan, w) && DistinctChannels(plan.cfgs) && InOrder(cycles)
    requires cycles != [] ==> cycles[|cycles| - 1].turn.now <= now
    ensures Chronological(Log(plan, w, cycles), now)
    ensures cycles != [] ==> Chronological(LogSoFar(plan, w, cycles), cycles[|cycles| - 1].turn.now)
  {
    hide Equipped, DistinctChannels, CycleOps, QueryOps, After, Chronological, AllAt;
    if cycles != [] {
      var init, c := cycles[..|cycles| - 1], cycles[|cycles| - 1].turn;
      var before := After(plan, w, init);
      LogInTime(plan, w, init, c.now);
      CycleAt(plan, before, c);
      LaterOps(Log(plan, w, init), c.now, CycleOps(plan, before, c), c.now);
      QueriesAt(plan.cfgs, c.now, |plan.cfgs|);
      LaterOps(LogSoFar(plan, w, cycles), c.now, QueryOps(plan.cfgs, c.now, |plan.cfgs|), c.now);
      LaterOps(Log(plan, w, cycles), c.now, [], now) by { NoneAt(now); }
      assert Log(plan, w, cycles) + [] == Log(plan, w, cycles);
    } else {
      NothingLogged(now);
    }
  }

  lemma CycleAt(plan: Plan, w: World, c: Turn)
    requires Equipped(plan, w)
    ensures AllAt(CycleOps(plan, w, c), c.now)
  {
    TasksAt(plan, w.(tags := ObservedAll(w.tags, c.inputs)), c, |plan.tasks|);
    hide TasksOps, AllAt;
  }

  lemma QueriesAt(cfgs: seq<Config>, now: real, n: nat)
    requires n <= |cfgs|
    ensures AllAt(QueryOps(cfgs, now, n), now)
  {}

  lemma NoneAt(now: real)
    ensures AllAt([], now)
  {}

  lemma NothingLogged(now: real)
    ensures Chronological([], now)
  {}

  /** Over every run from an empty board: what arbitration ranks on a channel is exactly each
      requester's latest post there, in any cycle so far, that was not withdrawn since and has not
      expired. */
  lemma RoundAnswersLog(plan: Plan, w: World, cycles: seq<Cycle>, i: nat, r: Request)
    requires Equipped(plan, w) && DistinctChannels(plan.cfgs) && i < |plan.cfgs| && cycles != [] && InOrder(cycles)
    requires w.claims == map ch | ch in w.claims.Keys :: map[]
    ensures var round, now := Round(plan, w, cycles, i), cycles[|cycles| - 1].turn.now;
            && Ranked(round)
            && (r in round <==>
                var logged := Latest(LogSoFar(plan, w, cycles), plan.cfgs[i].channel, r.requester);
                && logged.Some? && logged.value.request == r
                && (r.ttl.None? || now < logged.value.postedAt + r.ttl.value))
  {
    hide Tasked, Log, LogSoFar, AfterOps, Chronological, Latest, Ranked, After;
    var last := cycles[|cycles| - 1].turn;
    LogInTime(plan, w, cycles, last.now);
    BoardIsLogged(plan, w, cycles);
    assert plan.cfgs[i].channel in w.claims;
    hide Equipped, DistinctChannels;
    QueryAnswersFromLog(w.claims.Keys, LogSoFar(plan, w, cycles), plan.cfgs[i].channel, last.now, r);
  }
}
