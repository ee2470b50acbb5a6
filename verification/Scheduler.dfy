/** The scheduler object that runs the scan cycle (src/pyems/scheduler.py). */
module Scheduling {
  import opened Num
  import opened Board
  import opened Journal
  import opened Channels
  import Cache = CachedDriver
  import opened Arbitration
  import opened Allocator
  import opened Safety
  import opened Scan

  // --- tasks in priority order, equal priorities as configured ------------------------------

  function InsertTask(t: TaskSpec, s: seq<TaskSpec>): seq<TaskSpec> {
    if s == [] then [t] else if t.priority < s[0].priority then [t] + s else [s[0]] + InsertTask(t, s[1..])
  }

  function SortTasks(s: seq<TaskSpec>): seq<TaskSpec> {
    if s == [] then [] else InsertTask(s[|s| - 1], SortTasks(s[..|s| - 1]))
  }

  ghost predicate ByPriority(s: seq<TaskSpec>) {
    forall i, j :: 0 <= i < j < |s| ==> s[i].priority <= s[j].priority
  }

  lemma {:induction false} InsertTaskContents(t: TaskSpec, s: seq<TaskSpec>)
    ensures multiset(InsertTask(t, s)) == multiset(s) + multiset{t}
  {
    if s != [] {
      assert s == [s[0]] + s[1..];
      if t.priority >= s[0].priority { InsertTaskContents(t, s[1..]); }
    }
  }

  lemma {:induction false} InsertTaskSorted(t: TaskSpec, s: seq<TaskSpec>)
    requires ByPriority(s)
    ensures ByPriority(InsertTask(t, s))
  {
    if s != [] && t.priority >= s[0].priority {
      InsertTaskSorted(t, s[1..]);
      InsertTaskContents(t, s[1..]);
      var rest := InsertTask(t, s[1..]);
      forall j | 0 <= j < |rest| ensures rest[j].priority >= s[0].priority {
        assert rest[j] in multiset(rest);
      }
    }
  }

  lemma {:induction false} SortTasksCorrect(s: seq<TaskSpec>)
    ensures ByPriority(SortTasks(s)) && multiset(SortTasks(s)) == multiset(s)
  {
    if s != [] {
      var init, last := s[..|s| - 1], s[|s| - 1];
      SortTasksCorrect(init);
      InsertTaskSorted(last, SortTasks(init));
      InsertTaskContents(last, SortTasks(init));
      assert s == init + [last];
      hide ByPriority, InsertTask;
    }
  }

  lemma SortKeepsLength(s: seq<TaskSpec>)
    ensures |SortTasks(s)| == |s|
  {
    SortTasksCorrect(s);
    assert |multiset(s)| == |multiset(SortTasks(s))|;
  }

  function OfPriority(s: seq<TaskSpec>, p: int): seq<TaskSpec> {
    if s == [] then []
    else OfPriority(s[..|s| - 1], p) + if s[|s| - 1].priority == p then [s[|s| - 1]] else []
  }

  lemma {:induction false} OfPriorityFrom(t: TaskSpec, s: seq<TaskSpec>, p: int)
    ensures OfPriority([t] + s, p) == (if t.priority == p then [t] else []) + OfPriority(s, p)
  {
    var all := [t] + s;
    if s == [] {
      assert all[..0] == [];
    } else {
      assert all[..|all| - 1] == [t] + s[..|s| - 1];
      OfPriorityFrom(t, s[..|s| - 1], p);
    }
  }

  lemma {:induction false} InsertTaskLast(t: TaskSpec, s: seq<TaskSpec>, p: int)
    requires ByPriority(s)
    ensures OfPriority(InsertTask(t, s), p) == OfPriority(s, p) + if t.priority == p then [t] else []
  {
    if s == [] {
      assert [t][..0] == [];
    } else {
      var rest := s[1..];
      assert s == [s[0]] + rest && ByPriority(rest);
      if t.priority < s[0].priority {
        OfPriorityFrom(t, s, p);
        if p == t.priority { NoneOfPriority(s, p); }
      } else {
        InsertTaskLast(t, rest, p);
        OfPriorityFrom(s[0], InsertTask(t, rest), p);
        OfPriorityFrom(s[0], rest, p);
      }
    }
  }

  lemma {:induction false} NoneOfPriority(s: seq<TaskSpec>, p: int)
    requires forall i :: 0 <= i < |s| ==> s[i].priority != p
    ensures OfPriority(s, p) == []
  {
    if s != [] { NoneOfPriority(s[..|s| - 1], p); }
  }

  /** Tasks of one priority run in the order they are configured in. */
  lemma {:induction false} SortTasksStable(s: seq<TaskSpec>, p: int)
    ensures OfPriority(SortTasks(s), p) == OfPriority(s, p)
  {
    if s != [] {
      var init := s[..|s| - 1];
      SortTasksStable(init, p);
      SortTasksCorrect(init);
      InsertTaskLast(s[|s| - 1], SortTasks(init), p);
    }
  }

  /** With one priority-0 task, sorting puts it first. */
  lemma GuardianFirst(s: seq<TaskSpec>, t: TaskSpec)
    requires t in s && t.priority == 0 && forall x :: x in s ==> x == t || x.priority > 0
    ensures SortTasks(s) != [] && SortTasks(s)[0] == t
  {
    SortTasksCorrect(s);
    var sorted := SortTasks(s);
    assert t in multiset(sorted);
    var i :| 0 <= i < |sorted| && sorted[i] == t;
    assert sorted[0] in multiset(s);
  }

  /** The interlock runs uncontained in the priority-0 tasks, every other controller contained. */
  ghost predicate Placed(specs: seq<TaskSpec>) {
    forall i, r :: 0 <= i < |specs| && r in specs[i].controllers ==> (r.Guardian? <==> specs[i].priority == 0)
  }

  lemma SortKeepsPlaces(specs: seq<TaskSpec>)
    requires Placed(specs)
    ensures Placed(SortTasks(specs))
  {
    SortTasksCorrect(specs);
    forall i | 0 <= i < |SortTasks(specs)| ensures SortTasks(specs)[i] in specs {
      assert SortTasks(specs)[i] in multiset(SortTasks(specs));
    }
  }

  lemma PlayedFrom(tags: Tags, claims: map<string, Claims>, script: seq<Effect>, i: nat, now: real)
    requires i < |script|
    ensures var o := Acted(tags, claims, script[i], now);
            Played(tags, claims, script[i..], now) == if o.ok then Played(o.tags, o.claims, script[i + 1..], now) else o
  {
    assert script[i..][0] == script[i] && script[i..][1..] == script[i + 1..];
  }

  class Task {
    const spec: TaskSpec
    var nextRun: real

    constructor (spec: TaskSpec)
      ensures this.spec == spec && nextRun == 0.0
    {
      this.spec, nextRun := spec, 0.0;
    }

    predicate IsDue(now: real)
      reads this
    {
      now >= nextRun
    }

    method MarkRan(now: real)
      modifies this
      ensures nextRun == now + spec.interval
    {
      nextRun := now + spec.interval;
    }
  }

  method MakeTasks(specs: seq<TaskSpec>) returns (made: seq<Task>)
    ensures |made| == |specs| && fresh(made)
    ensures forall k :: 0 <= k < |made| ==> made[k].spec == specs[k] && made[k].nextRun == 0.0
    ensures forall j, k :: 0 <= j < k < |made| ==> made[j] != made[k]
  {
    made := [];
    for i := 0 to |specs|
      invariant |made| == i && fresh(made)
      invariant forall k :: 0 <= k < i ==> made[k].spec == specs[k] && made[k].nextRun == 0.0
      invariant forall j, k :: 0 <= j < k < i ==> made[j] != made[k]
    {
      var task := new Task(specs[i]);
      made := made + [task];
    }
  }

  class Scheduler {
    const state: SystemState
    const board: RequestBoard
    const allocator: PowerAllocator
    const safety: SafetyController
    const driver: Cache.CachedDriver
    const tasks: seq<Task>
    /** The contained controllers whose last run raised. */
    var failing: set<nat>
    ghost var nextRuns: seq<real>

    ghost function Specs(): (s: seq<TaskSpec>)
      ensures |s| == |tasks| && forall i :: 0 <= i < |s| ==> s[i] == tasks[i].spec
    {
      seq(|tasks|, i requires 0 <= i < |tasks| => tasks[i].spec)
    }

    ghost function PlanOf(): Plan
    {
      Plan(safety.g, allocator.Cfgs(), allocator.cycle, Specs(), driver.writable)
    }

    ghost function View(): World
      reads this, state, board, safety, allocator, driver
    {
      World(state.tags, board.claims, safety.View(), allocator.lasts, nextRuns, failing, driver.cache)
    }

    ghost function Journals(): set<object>
    {
      if safety.journal == null then {} else {safety.journal}
    }

    ghost predicate Wired() {
      && allocator.board == board && allocator.journal == safety.journal
      && (forall i, j :: 0 <= i < j < |tasks| ==> tasks[i] != tasks[j])
      && Placed(Specs())
    }

    ghost predicate Alarmed()
      reads this, state, board, safety, allocator, allocator.arbiters, allocator.Journals(), Journals()
    {
      allocator.Valid() && safety.TripAgrees()
    }

    ghost predicate Valid()
      reads this, state, board, safety, allocator, allocator.arbiters, allocator.Journals(), Journals(), tasks, driver
    {
      && Wired() && Alarmed() && board.Valid()
      && |nextRuns| == |tasks| && (forall i :: 0 <= i < |tasks| ==> tasks[i].nextRun == nextRuns[i])
      && Equipped(PlanOf(), View())
    }

    constructor (specs: seq<TaskSpec>, state: SystemState, allocator: PowerAllocator, safety: SafetyController,
                 driver: Cache.CachedDriver)
      requires Placed(specs) && allocator.Valid() && allocator.board.Valid() && safety.TripAgrees()
      requires allocator.journal == safety.journal
      requires |allocator.lasts| == |allocator.Cfgs()|
      requires Readable(safety.g, state.tags) && Commandable(state.tags, SAFE_MODE)
      requires Configured(allocator.Cfgs(), allocator.board.claims)
      requires forall ch :: ch in safety.g.guarded ==> ch in allocator.board.claims
      requires driver.writable <= state.tags.Keys
      ensures Valid() && this.state == state && this.allocator == allocator && this.safety == safety && this.driver == driver
      ensures Specs() == SortTasks(specs)
      ensures nextRuns == seq(|specs|, _ => 0.0) && failing == {}
    {
      SortKeepsPlaces(specs);
      SortKeepsLength(specs);
      var sorted := SortTasks(specs);
      var made := MakeTasks(sorted);
      this.tasks, this.state, this.allocator, this.safety := made, state, allocator, safety;
      this.board, this.driver := allocator.board, driver;
      failing, nextRuns := {}, seq(|specs|, _ => 0.0);
    }

    /** The driver's readings, or what its worker lands, on the tags. */
    method Land(values: map<string, Ext>)
      modifies state
      ensures state.tags == ObservedAll(old(state.tags), values)
    {
      var todo := values.Keys;
      while todo != {}
        invariant todo <= values.Keys && state.tags.Keys == old(state.tags).Keys
        invariant forall name :: name in old(state.tags) ==>
                    state.tags[name] == if name in values && name !in todo then old(state.tags)[name].(value := values[name])
                                        else old(state.tags)[name]
      {
        var name :| name in todo;
        var _ := state.ApplyDriverValue(name, values[name]);
        todo := todo - {name};
      }
    }

    method Meet(values: map<string, Ext>)
      requires Valid()
      modifies state
      ensures Valid() && View() == old(View()).(tags := ObservedAll(old(state.tags), values))
    {
      Land(values);
      hide ObservedAll, Alarmed;
    }

    /** The interlock executes; the allocation alarms still agree. */
    method Guard(now: real)
      requires Valid() && board.now == now
      modifies safety, state, board`claims, Journals()
      ensures Valid() && View() == Guarded(PlanOf(), old(View()), now)
    {
      AlarmIdsAreOwn();
      hide SafetyVerdict, SafetyClaims, Commanded, OwnId, AlarmId, EventJournal.Latched, Configured;
      safety.Execute(state, board);
      assert View() == Guarded(PlanOf(), old(View()), now);
    }

    /** A contained controller acts until it is done or raises. */
    method Play(script: seq<Effect>, now: real) returns (ok: bool)
      requires board.Valid() && board.now == now
      modifies state, board`claims
      ensures board.Valid() && Outcome(state.tags, board.claims, ok) == Played(old(state.tags), old(board.claims), script, now)
    {
      hide Commanded, Posted, Withdrawn;
      for i := 0 to |script|
        invariant board.Valid() && board.now == now
        invariant Played(old(state.tags), old(board.claims), script, now) ==
                  Played(state.tags, board.claims, script[i..], now)
      {
        PlayedFrom(state.tags, board.claims, script, i, now);
        match script[i] {
          case PostClaim(ch, r) => ok := board.Post(ch, r, None);
          case DropClaim(ch, requester) => ok := board.Withdraw(ch, requester);
          case SetTag(name, value) => ok := state.Set(name, value);
          case Raise => ok := false;
        }
        if !ok { return; }
      }
      return true;
    }

    /** A failure is contained: it is noted, and the cycle goes on. */
    method ExecuteContained(id: nat, script: seq<Effect>, c: Turn)
      requires Valid() && board.now == c.now && script == ScriptOf(c, id)
      modifies `failing, state, board`claims
      ensures Valid() && View() == Contained(PlanOf(), old(View()), id, c)
    {
      hide Played, Equipped;
      var ok := Play(script, c.now);
      failing := if ok then failing - {id} else failing + {id};
      assert View() == Contained(PlanOf(), old(View()), id, c);
    }

    method RunController(r: Runner, priority: int, c: Turn)
      requires Valid() && board.now == c.now && (r.Guardian? <==> priority == 0)
      modifies `failing, safety, state, board`claims, Journals()
      ensures Valid() && View() == Ran(PlanOf(), old(View()), r, c)
    {
      hide Guarded, Contained, ObservedAll, Valid;
      if priority == 0 {
        Meet(c.seen);
        Guard(c.now);
      } else {
        ExecuteContained(r.id, if r.id in c.scripts then c.scripts[r.id] else [], c);
      }
    }

    method RunControllers(controllers: seq<Runner>, priority: int, c: Turn)
      requires Valid() && board.now == c.now && forall r :: r in controllers ==> (r.Guardian? <==> priority == 0)
      modifies `failing, safety, state, board`claims, Journals()
      ensures Valid() && View() == RanFirst(PlanOf(), old(View()), controllers, c, |controllers|)
    {
      ghost var plan, w := PlanOf(), View();
      assert Equipped(plan, w);
      hide Ran, Equipped, Valid;
      for j := 0 to |controllers|
        invariant Valid() && View() == RanFirst(plan, w, controllers, c, j)
      {
        RunController(controllers[j], priority, c);
      }
    }

    method RunTask(i: nat, c: Turn)
      requires Valid() && board.now == c.now && i < |tasks|
      modifies `failing, `nextRuns, safety, state, board`claims, tasks[i], Journals()
      ensures Valid() && View() == TaskRan(PlanOf(), old(View()), i, c)
    {
      hide RanFirst, Equipped;
      var task := tasks[i];
      if task.IsDue(c.now) {
        RunControllers(task.spec.controllers, task.spec.priority, c);
        task.MarkRan(c.now);
        nextRuns := nextRuns[i := task.nextRun];
      }
      assert View() == TaskRan(PlanOf(), old(View()), i, c);
    }

    method Arbitrate(now: real)
      requires Valid()
      modifies allocator, allocator.arbiters, state, board`claims, Journals()
      ensures Valid() && View() == Arbitrated(PlanOf(), old(View()), now)
    {
      hide NextOf, Purged, CommandedFirst, OwnId, AlarmId;
      allocator.Resolve(state, now);
      assert View() == Arbitrated(PlanOf(), old(View()), now);
    }

    /** The first n tasks have had their turn in a cycle that read w. */
    ghost predicate AtTask(w: World, c: Turn, n: nat)
      reads this, state, board, safety, allocator, allocator.arbiters, allocator.Journals(), Journals(), tasks, driver
    {
      && Valid() && board.now == c.now && n <= |tasks| && Equipped(PlanOf(), w)
      && View() == TasksRan(PlanOf(), w, c, n)
    }

    /** The inputs land before anything runs. */
    method Begin(c: Turn)
      requires Valid()
      modifies state, board`now
      ensures AtTask(old(View()).(tags := ObservedAll(old(state.tags), c.inputs)), c, 0)
    {
      Land(c.inputs);
      board.Tick(c.now);
    }

    method Advance(i: nat, ghost w: World, c: Turn)
      requires AtTask(w, c, i) && i < |tasks|
      modifies `failing, `nextRuns, safety, state, board`claims, tasks[i], Journals()
      ensures AtTask(w, c, i + 1)
    {
      hide TaskRan, Equipped;
      RunTask(i, c);
    }

    method WriteSetpoints()
      requires Valid()
      modifies driver
      ensures Valid() && View() == old(View()).(published := View().published)
      ensures driver.View() == Cache.Published(old(driver.View()), Readout(state.tags, driver.writable))
    {
      hide Wired, Configured, Readable;
      driver.WriteSetpoints(state, None);
      assert Alarmed();
      assert driver.View() == Cache.Published(old(driver.View()), map n | n in driver.writable :: state.Get(n));
      assert Readout(state.tags, driver.writable) == map n | n in driver.writable :: state.Get(n);
    }

    /** The live setpoints, whatever put them there, go to the driver's cache. */
    method Publish(landed: map<string, Ext>)
      requires Valid()
      modifies state, driver
      ensures Valid() && View() == Output(PlanOf(), old(View()), landed)
      ensures driver.View() == Cache.Published(old(driver.View()), Readout(state.tags, driver.writable))
    {
      hide Valid, ObservedAll, Readout;
      Meet(landed);
      WriteSetpoints();
    }

    /** One scan cycle. */
    method Step(c: Cycle)
      requires Valid()
      modifies this, safety, state, board, tasks, allocator, allocator.arbiters, Journals(), driver
      ensures Valid() && View() == Stepped(PlanOf(), old(View()), c)
      ensures driver.View() == Cache.Published(old(driver.View()), Readout(state.tags, driver.writable))
    {
      hide Valid, Output, Decided, Readout;
      Decide(c.turn);
      Publish(c.landed);
    }

    /** All of a cycle but its output. */
    method Decide(c: Turn)
      requires Valid()
      modifies this, safety, state, board, tasks, allocator, allocator.arbiters, Journals()
      ensures Valid() && View() == Decided(PlanOf(), old(View()), c)
    {
      hide Valid, Arbitrated, TasksRan, ObservedAll;
      ghost var read := View().(tags := ObservedAll(state.tags, c.inputs));
      Begin(c);
      RunTasks(read, c);
      Arbitrate(c.now);
    }

    method RunTasks(ghost w: World, c: Turn)
      requires AtTask(w, c, 0)
      modifies `failing, `nextRuns, safety, state, board`claims, tasks, Journals()
      ensures AtTask(w, c, |tasks|)
    {
      hide AtTask;
      for i := 0 to |tasks|
        invariant AtTask(w, c, i)
      {
        Advance(i, w, c);
      }
    }
  }
}
