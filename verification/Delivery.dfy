/** How often, and in which order, each one-shot command is written to its register
    (src/pyems/drivers/cached.py), on every interleaving. */
module Delivery {
  import opened Num
  import opened Channels
  import opened CachedDriver
  import opened Interleaving
  import opened SetpointFlow
  import opened CommandFlow

  // --- which command a transaction writes -----------------------------------------------------------

  /** Of several commands for one register the last is loaded. */
  function LastOf(cmds: seq<Command>, tag: string): (i: nat)
    requires tag in TagsOf(cmds)
    ensures i < |cmds| && cmds[i].tag == tag && LastValue(cmds, tag) == Some(cmds[i].value)
    ensures forall j :: i < j < |cmds| ==> cmds[j].tag != tag
  {
    assert cmds == cmds[..|cmds| - 1] + [cmds[|cmds| - 1]];
    if cmds[|cmds| - 1].tag == tag then |cmds| - 1 else LastOf(cmds[..|cmds| - 1], tag)
  }

  predicate Landing(a: Attempt, tag: string) {
    tag in a.landed && tag in TagsOf(a.cmds)
  }

  /** The command, by its place in the send history, that a transaction wrote to the register. */
  function Served(a: Attempt, tag: string): nat
    requires Landing(a, tag)
  {
    a.first + LastOf(a.cmds, tag)
  }

  /** The commands written to the register, in order, by the transactions with these outcomes. */
  function Servings(attempts: seq<Attempt>, tag: string, outcomes: set<bool>): seq<nat> {
    if attempts == [] then []
    else
      var init, last := attempts[..|attempts| - 1], attempts[|attempts| - 1];
      Servings(init, tag, outcomes) + if Landing(last, tag) && last.ok in outcomes then [Served(last, tag)] else []
  }

  function TimesWritten(attempts: seq<Attempt>, tag: string, i: nat): nat {
    multiset(Servings(attempts, tag, {true, false}))[i]
  }

  /** How often a transaction wrote the command and was then taken for a failure. */
  function TimesInVain(attempts: seq<Attempt>, tag: string, i: nat): nat {
    multiset(Servings(attempts, tag, {false}))[i]
  }

  predicate Covers(a: Attempt, i: nat) {
    a.first <= i < a.first + |a.cmds|
  }

  /** The batch that delivered the command holds a newer one for its register. */
  ghost predicate Coalesced(attempts: seq<Attempt>, tag: string, i: nat) {
    exists k :: 0 <= k < |attempts| && Coalesces(attempts[k], tag, i)
  }

  predicate Coalesces(a: Attempt, tag: string, i: nat) {
    a.ok && Covers(a, i) && tag in TagsOf(a.cmds) && a.first + LastOf(a.cmds, tag) != i
  }

  // --- the log of transactions ---------------------------------------------------------------------

  /** Each transaction starts after all that was delivered before it; n commands are delivered. */
  predicate Chained(attempts: seq<Attempt>, n: int) {
    if attempts == [] then n == 0
    else
      var last := attempts[|attempts| - 1];
      Chained(attempts[..|attempts| - 1], last.first) && n == last.first + if last.ok then |last.cmds| else 0
  }

  /** A transaction writes registers of its batch, all of them if it succeeds; its batch is what
      was sent from its start on. */
  ghost predicate Truthful(a: Attempt, sent: seq<Command>) {
    && a.landed <= TagsOf(a.cmds) && (a.ok ==> a.landed == TagsOf(a.cmds))
    && a.first + |a.cmds| <= |sent| && a.cmds == sent[a.first..a.first + |a.cmds|]
  }

  ghost predicate AllTruthful(attempts: seq<Attempt>, sent: seq<Command>) {
    forall k :: 0 <= k < |attempts| ==> Truthful(attempts[k], sent)
  }

  /** A later transaction takes up where this one ended, or repeats it with more at the end. */
  predicate Before(a: Attempt, b: Attempt) {
    a.first + |a.cmds| <= b.first || (!a.ok && a.first == b.first && |a.cmds| <= |b.cmds|)
  }

  ghost predicate AllBefore(attempts: seq<Attempt>, b: Attempt) {
    forall k :: 0 <= k < |attempts| ==> Before(attempts[k], b)
  }

  ghost predicate Ordered(attempts: seq<Attempt>) {
    forall k :: 0 <= k < |attempts| ==> AllBefore(attempts[..k], attempts[k])
  }

  /** The transaction under way, or the one that the queue would make. */
  function Upcoming(done: seq<Command>, p: Phase, queue: seq<Command>): Attempt {
    Attempt(|done|, if p.Commanding? then p.cmds else queue, {}, false)
  }

  ghost predicate Logged(attempts: seq<Attempt>, done: seq<Command>, p: Phase, queue: seq<Command>, sent: seq<Command>) {
    && Conserved(done, p, queue, sent)
    && Chained(attempts, |done|) && AllTruthful(attempts, sent)
    && Ordered(attempts) && AllBefore(attempts, Upcoming(done, p, queue))
  }

  lemma ChainMore(attempts: seq<Attempt>, a: Attempt)
    requires Chained(attempts, a.first)
    ensures Chained(attempts + [a], a.first + if a.ok then |a.cmds| else 0)
  {
    assert (attempts + [a])[..|attempts + [a]| - 1] == attempts;
  }

  lemma OrderMore(attempts: seq<Attempt>, a: Attempt)
    requires Ordered(attempts) && AllBefore(attempts, a)
    ensures Ordered(attempts + [a])
  {
    var all := attempts + [a];
    forall k | 0 <= k < |all| ensures AllBefore(all[..k], all[k]) {
      if k < |attempts| { assert all[..k] == attempts[..k] && AllBefore(attempts[..k], attempts[k]); }
      else { assert all[..k] == attempts; }
    }
  }

  lemma TruthfulMore(attempts: seq<Attempt>, sent: seq<Command>, c: Command)
    requires AllTruthful(attempts, sent)
    ensures AllTruthful(attempts, sent + [c])
  {
    forall k | 0 <= k < |attempts| ensures Truthful(attempts[k], sent + [c]) {
      assert Truthful(attempts[k], sent);
    }
  }

  lemma SendLogged(attempts: seq<Attempt>, done: seq<Command>, p: Phase, queue: seq<Command>, sent: seq<Command>, c: Command)
    requires Logged(attempts, done, p, queue, sent)
    ensures Logged(attempts, done, p, queue + [c], sent + [c])
  {
    TruthfulMore(attempts, sent, c);
    assert done + Inflight(p) + (queue + [c]) == done + Inflight(p) + queue + [c];
    hide AllTruthful, Ordered, Chained;
  }

  lemma TakeLogged(attempts: seq<Attempt>, done: seq<Command>, queue: seq<Command>, sent: seq<Command>)
    requires Logged(attempts, done, Idle, queue, sent)
    ensures Logged(attempts, done, Commanding(queue, false, {}), [], sent)
  {
    hide AllTruthful, Ordered, Chained;
  }

  lemma EndLogged(attempts: seq<Attempt>, done: seq<Command>, p: Phase, queue: seq<Command>, sent: seq<Command>, ok: bool)
    requires p.Commanding? && Logged(attempts, done, p, queue, sent)
    requires p.written <= TagsOf(p.cmds) && (ok ==> TagsOf(p.cmds) <= p.written)
    ensures var a := Attempt(|done|, p.cmds, p.written, ok);
            && (ok ==> Logged(attempts + [a], done + p.cmds, Idle, queue, sent))
            && (!ok ==> Logged(attempts + [a], done, Idle, p.cmds + queue, sent))
  {
    hide Ordered, Chained, TagsOf, AllTruthful;
    var a := Attempt(|done|, p.cmds, p.written, ok);
    ChainMore(attempts, a);
    AllBeforeThis(attempts, a, done, p, queue);
    OrderMore(attempts, a);
    TruthfulOne(attempts, a, done, queue, sent);
    UpcomingLater(attempts, a, if ok then done + p.cmds else done, if ok then queue else p.cmds + queue);
    hide AllBefore;
    assert done + [] + (p.cmds + queue) == done + p.cmds + queue;
    assert done + p.cmds + [] + queue == done + p.cmds + queue;
  }

  lemma AllBeforeThis(attempts: seq<Attempt>, a: Attempt, done: seq<Command>, p: Phase, queue: seq<Command>)
    requires p.Commanding? && a.first == |done| && a.cmds == p.cmds && AllBefore(attempts, Upcoming(done, p, queue))
    ensures AllBefore(attempts, a)
  {
    forall k | 0 <= k < |attempts| ensures Before(attempts[k], a) {
      assert Before(attempts[k], Upcoming(done, p, queue));
    }
  }

  lemma TruthfulOne(attempts: seq<Attempt>, a: Attempt, done: seq<Command>, queue: seq<Command>, sent: seq<Command>)
    requires AllTruthful(attempts, sent) && a.first == |done| && sent == done + a.cmds + queue
    requires a.landed <= TagsOf(a.cmds) && (a.ok ==> TagsOf(a.cmds) <= a.landed)
    ensures AllTruthful(attempts + [a], sent)
  {
    assert sent[|done|..|done| + |a.cmds|] == a.cmds;
  }

  lemma UpcomingLater(attempts: seq<Attempt>, a: Attempt, done: seq<Command>, queue: seq<Command>)
    requires AllBefore(attempts, a) && |done| == a.first + (if a.ok then |a.cmds| else 0)
    requires !a.ok ==> |a.cmds| <= |queue|
    ensures AllBefore(attempts + [a], Upcoming(done, Idle, queue))
  {
    forall k | 0 <= k < |attempts + [a]| ensures Before((attempts + [a])[k], Upcoming(done, Idle, queue)) {
      if k < |attempts| { assert Before(attempts[k], a); }
    }
  }

  lemma AttemptsKept(L: Layout, s: Sys, e: Event)
    requires !e.EndCommands?
    ensures Apply(L, s, e).past.attempts == s.past.attempts
  {
    hide Foreground, CommandPass, FlushPass, ReadPass;
  }

  ghost predicate LogHolds(s: Sys) {
    Logged(s.past.attempts, s.past.done, s.phase, s.queue, s.past.sent)
  }

  lemma OtherLogged(attempts: seq<Attempt>, done: seq<Command>, p: Phase, q: Phase, queue: seq<Command>, sent: seq<Command>)
    requires Logged(attempts, done, p, queue, sent) && Inflight(p) == Inflight(q) && p.Commanding? == q.Commanding?
    ensures Logged(attempts, done, q, queue, sent)
  {
    hide AllTruthful, Ordered, Chained, AllBefore;
  }

  lemma CommandsStayInFlight(L: Layout, s: Sys, e: Event)
    requires !MovesCommands(e) || e.LoadCommands?
    ensures var t := Apply(L, s, e);
            Inflight(t.phase) == Inflight(s.phase) && t.phase.Commanding? == s.phase.Commanding?
  {
    PhaseStep(L, s, e);
    hide Apply, AllGood, Goods, TagsOf, Targets;
  }

  lemma LogStep(L: Layout, s: Sys, e: Event)
    requires PhaseFits(L, s.mirror, s.phase) && LogHolds(s)
    ensures LogHolds(Apply(L, s, e))
  {
    hide Apply, Logged;
    var past := s.past;
    if e.Send? {
      SendStep(L, s, Command(e.tag, e.value));
      SendLogged(past.attempts, past.done, s.phase, s.queue, past.sent, Command(e.tag, e.value));
    } else if e.TakeCommands? {
      TakeCommandsStep(L, s);
      if s.phase.Idle? { TakeLogged(past.attempts, past.done, s.queue, past.sent); }
    } else if e.EndCommands? {
      EndCommandsStep(L, s, e.ok, e.at);
      if CommandsOver(s.phase, e.ok) { EndLogged(past.attempts, past.done, s.phase, s.queue, past.sent, e.ok); }
    } else {
      AttemptsKept(L, s, e);
      AccountAndQueueKept(L, s, e);
      CommandsStayInFlight(L, s, e);
      OtherLogged(past.attempts, past.done, s.phase, Apply(L, s, e).phase, s.queue, past.sent);
    }
  }

  lemma AccountAndQueueKept(L: Layout, s: Sys, e: Event)
    requires !MovesCommands(e) || e.LoadCommands?
    ensures var t := Apply(L, s, e);
            t.queue == s.queue && t.past.done == s.past.done && t.past.sent == s.past.sent
  {
    hide Apply;
    if e.LoadCommands? {
      LoadKeepsAccount(L, s);
    } else {
      QueueKept(L, s, e);
      AccountKept(L, s, e);
    }
  }

  lemma {:induction false} LogRun(L: Layout, s: Sys, es: seq<Event>)
    requires Initial(L, s)
    ensures LogHolds(Run(L, s, es))
  {
    if es != [] {
      LogRun(L, s, es[..|es| - 1]);
      ShapedRun(L, s, es[..|es| - 1]);
      LogStep(L, Run(L, s, es[..|es| - 1]), es[|es| - 1]);
      hide Apply, Initial, LogHolds, MirrorFits, StoresFit, Agree, TagsOf, PhaseFits;
    }
  }

  // --- in the order sent -----------------------------------------------------------------------------

  ghost predicate NonDecreasing(s: seq<nat>) {
    forall j, k :: 0 <= j < k < |s| ==> s[j] <= s[k]
  }

  lemma ServedLater(a: Attempt, b: Attempt, sent: seq<Command>, tag: string)
    requires Before(a, b) && Truthful(a, sent) && Truthful(b, sent) && Landing(a, tag) && Landing(b, tag)
    ensures Served(a, tag) <= Served(b, tag)
  {
    var i := LastOf(a.cmds, tag);
    if a.first == b.first {
      assert a.cmds[i] == sent[a.first + i] && b.cmds[i] == sent[b.first + i];
    }
  }

  lemma {:induction false} ServedUpTo(attempts: seq<Attempt>, b: Attempt, sent: seq<Command>, tag: string, outcomes: set<bool>)
    requires AllBefore(attempts, b) && AllTruthful(attempts, sent) && Truthful(b, sent) && Landing(b, tag)
    ensures forall j :: 0 <= j < |Servings(attempts, tag, outcomes)| ==> Servings(attempts, tag, outcomes)[j] <= Served(b, tag)
  {
    if attempts != [] {
      var init, last := attempts[..|attempts| - 1], attempts[|attempts| - 1];
      ServedUpTo(init, b, sent, tag, outcomes);
      if Landing(last, tag) { ServedLater(last, b, sent, tag); }
    }
    hide Served, Truthful, Landing, Before;
  }

  lemma {:induction false} ServingsOrdered(attempts: seq<Attempt>, sent: seq<Command>, tag: string, outcomes: set<bool>)
    requires Ordered(attempts) && AllTruthful(attempts, sent)
    ensures NonDecreasing(Servings(attempts, tag, outcomes))
  {
    if attempts != [] {
      var init, last := attempts[..|attempts| - 1], attempts[|attempts| - 1];
      assert Ordered(init) by {
        forall k | 0 <= k < |init| ensures AllBefore(init[..k], init[k]) { assert init[..k] == attempts[..k]; }
      }
      ServingsOrdered(init, sent, tag, outcomes);
      assert attempts[..|attempts| - 1] == init && AllBefore(init, last);
      if Landing(last, tag) { ServedUpTo(init, last, sent, tag, outcomes); }
    }
    hide Served, Truthful, Landing, AllBefore;
  }

  /** Commands for one register are written in the order they were sent, repetitions included. */
  lemma WrittenInOrder(L: Layout, s: Sys, es: seq<Event>, tag: string)
    requires Initial(L, s)
    ensures NonDecreasing(Servings(Run(L, s, es).past.attempts, tag, {true, false}))
  {
    LogRun(L, s, es);
    var past := Run(L, s, es).past;
    ServingsOrdered(past.attempts, past.sent, tag, {true, false});
    hide Run, Ordered, AllTruthful, Chained, AllBefore, Conserved;
  }

  // --- how often -------------------------------------------------------------------------------------

  lemma OutcomesMore(attempts: seq<Attempt>, tag: string, outcomes: set<bool>)
    requires attempts != []
    ensures var init, last := attempts[..|attempts| - 1], attempts[|attempts| - 1];
            multiset(Servings(attempts, tag, outcomes)) ==
            multiset(Servings(init, tag, outcomes))
            + if Landing(last, tag) && last.ok in outcomes then multiset{Served(last, tag)} else multiset{}
  {
    hide Served, Landing;
  }

  lemma {:induction false} SplitByOutcome(attempts: seq<Attempt>, tag: string)
    ensures multiset(Servings(attempts, tag, {true, false})) ==
            multiset(Servings(attempts, tag, {true})) + multiset(Servings(attempts, tag, {false}))
  {
    if attempts != [] {
      hide Servings, Served, Landing;
      SplitByOutcome(attempts[..|attempts| - 1], tag);
      OutcomesMore(attempts, tag, {true, false});
      OutcomesMore(attempts, tag, {true});
      OutcomesMore(attempts, tag, {false});
      var init, last := attempts[..|attempts| - 1], attempts[|attempts| - 1];
      if Landing(last, tag) {
        OneMore(multiset(Servings(init, tag, {true})), multiset(Servings(init, tag, {false})), multiset{Served(last, tag)});
      }
    }
  }

  lemma OneMore(a: multiset<nat>, b: multiset<nat>, one: multiset<nat>)
    ensures (a + one) + b == a + b + one && a + (b + one) == a + b + one
    ensures a + multiset{} == a && b + multiset{} == b
  {}

  lemma ChainInit(attempts: seq<Attempt>, n: int)
    requires attempts != [] && Chained(attempts, n)
    ensures var last := attempts[|attempts| - 1];
            Chained(attempts[..|attempts| - 1], last.first) && n == last.first + if last.ok then |last.cmds| else 0
  {}

  /** What is delivered was so before the count the chain ends with. */
  lemma {:induction false} DeliveredBelow(attempts: seq<Attempt>, n: int, k: nat)
    requires Chained(attempts, n) && k < |attempts| && attempts[k].ok
    ensures attempts[k].first + |attempts[k].cmds| <= n
  {
    var init, last := attempts[..|attempts| - 1], attempts[|attempts| - 1];
    ChainInit(attempts, n);
    if k < |init| { DeliveredBelow(init, last.first, k); }
    hide Chained;
  }

  lemma CoalescedMore(attempts: seq<Attempt>, n: int, tag: string, i: nat)
    requires attempts != [] && Chained(attempts, n)
    ensures var init, last := attempts[..|attempts| - 1], attempts[|attempts| - 1];
            && (i < last.first ==> (Coalesced(attempts, tag, i) <==> Coalesced(init, tag, i)))
            && (i >= last.first ==> (Coalesced(attempts, tag, i) <==> Coalesces(last, tag, i)))
  {
    var init, last := attempts[..|attempts| - 1], attempts[|attempts| - 1];
    ChainInit(attempts, n);
    forall k | 0 <= k < |init| && init[k].ok ensures init[k].first + |init[k].cmds| <= last.first {
      DeliveredBelow(init, last.first, k);
    }
    forall k | 0 <= k < |attempts| ensures k < |init| ==> attempts[k] == init[k] {}
    if Coalesced(init, tag, i) {
      var k :| 0 <= k < |init| && Coalesces(init[k], tag, i);
      assert Coalesces(attempts[k], tag, i);
    }
    if Coalesces(last, tag, i) { assert Coalesces(attempts[|attempts| - 1], tag, i); }
    hide Chained, TagsOf, LastOf;
  }

  lemma {:induction false} ServedBelow(attempts: seq<Attempt>, n: int, tag: string)
    requires Chained(attempts, n)
    ensures forall j :: 0 <= j < |Servings(attempts, tag, {true})| ==> Servings(attempts, tag, {true})[j] < n
  {
    if attempts != [] {
      ChainInit(attempts, n);
      ServedBelow(attempts[..|attempts| - 1], attempts[|attempts| - 1].first, tag);
    }
    hide Chained, TagsOf;
  }

  /** The transaction that delivers a command has written it, exactly if it is not coalesced. */
  lemma {:induction false} DeliveredWrites(attempts: seq<Attempt>, n: int, sent: seq<Command>, tag: string, i: nat)
    requires Chained(attempts, n) && AllTruthful(attempts, sent) && i < n <= |sent| && sent[i].tag == tag
    ensures multiset(Servings(attempts, tag, {true}))[i] == if Coalesced(attempts, tag, i) then 0 else 1
  {
    assert attempts != [];
    hide Chained, TagsOf, Coalesced, LastOf;
    var init, last := attempts[..|attempts| - 1], attempts[|attempts| - 1];
    ChainInit(attempts, n);
    assert AllTruthful(init, sent) && Truthful(last, sent) by {
      forall k | 0 <= k < |init| ensures Truthful(init[k], sent) { assert Truthful(attempts[k], sent); }
    }
    CoalescedMore(attempts, n, tag, i);
    ServedBelow(init, last.first, tag);
    if i < last.first {
      DeliveredWrites(init, last.first, sent, tag, i);
      assert Landing(last, tag) ==> Served(last, tag) != i;
    } else {
      assert i !in Servings(init, tag, {true});
      DeliveredLast(last, sent, tag, i);
    }
  }

  lemma DeliveredLast(a: Attempt, sent: seq<Command>, tag: string, i: nat)
    requires Truthful(a, sent) && a.ok && Covers(a, i) && sent[i].tag == tag
    ensures Landing(a, tag) && (Served(a, tag) == i <==> !Coalesces(a, tag, i))
  {
    assert a.cmds[i - a.first] == sent[i] && a.cmds[i - a.first].tag in TagsOf(a.cmds);
    hide TagsOf, LastOf;
  }

  /** A delivered command has been written exactly once, if and only if no failed transaction
      wrote it and none newer for its register was in its batch; or exactly one failed
      transaction wrote it and it was then coalesced away. */
  lemma WrittenOnceIff(L: Layout, s: Sys, es: seq<Event>, i: nat)
    requires Initial(L, s) && i < |Run(L, s, es).past.done|
    ensures var past := Run(L, s, es).past;
            var tag := past.done[i].tag;
            TimesWritten(past.attempts, tag, i) == 1 <==>
            TimesInVain(past.attempts, tag, i) == if Coalesced(past.attempts, tag, i) then 1 else 0
  {
    LogRun(L, s, es);
    var t := Run(L, s, es);
    var tag := t.past.done[i].tag;
    assert t.past.sent[i] == t.past.done[i];
    DeliveredWrites(t.past.attempts, |t.past.done|, t.past.sent, tag, i);
    SplitByOutcome(t.past.attempts, tag);
    hide Run, Ordered, AllTruthful, Chained, AllBefore, Coalesced, Initial;
  }

  // --- exactly once -----------------------------------------------------------------------------------

  ghost predicate NoneFailedLanded(attempts: seq<Attempt>, tag: string) {
    forall k :: 0 <= k < |attempts| && !attempts[k].ok ==> tag !in attempts[k].landed
  }

  predicate HoldsTwo(a: Attempt, tag: string) {
    exists j, l :: 0 <= j < l < |a.cmds| && a.cmds[j].tag == a.cmds[l].tag == tag
  }

  ghost predicate NoneHoldsTwo(attempts: seq<Attempt>, tag: string) {
    forall k :: 0 <= k < |attempts| && attempts[k].ok ==> !HoldsTwo(attempts[k], tag)
  }

  /** Each command for the register is written exactly once, by the transaction that delivers it. */
  ghost predicate WrittenOnceEach(past: History, tag: string) {
    forall i :: 0 <= i < |past.done| && past.done[i].tag == tag ==>
      TimesWritten(past.attempts, tag, i) == 1 && TimesInVain(past.attempts, tag, i) == 0
  }

  lemma {:induction false} LandingServes(attempts: seq<Attempt>, tag: string, outcomes: set<bool>, k: nat)
    requires k < |attempts| && Landing(attempts[k], tag) && attempts[k].ok in outcomes
    ensures Served(attempts[k], tag) in Servings(attempts, tag, outcomes)
  {
    var init, last := attempts[..|attempts| - 1], attempts[|attempts| - 1];
    if k < |init| {
      LandingServes(init, tag, outcomes, k);
      var j :| 0 <= j < |Servings(init, tag, outcomes)| && Servings(init, tag, outcomes)[j] == Served(attempts[k], tag);
      assert Servings(attempts, tag, outcomes)[j] == Served(attempts[k], tag);
    } else {
      assert Servings(attempts, tag, outcomes)[|Servings(init, tag, outcomes)|] == Served(last, tag);
    }
    hide Served, Landing;
  }

  lemma {:induction false} NothingInVain(attempts: seq<Attempt>, tag: string)
    requires NoneFailedLanded(attempts, tag)
    ensures Servings(attempts, tag, {false}) == []
  {
    if attempts != [] {
      var init := attempts[..|attempts| - 1];
      assert forall k :: 0 <= k < |init| ==> init[k] == attempts[k];
      NothingInVain(init, tag);
    }
  }

  /** A failed transaction that wrote the register wrote a command that was delivered later. */
  lemma FailureShows(past: History, tag: string, k: nat) returns (i: nat)
    requires AllTruthful(past.attempts, past.sent) && AllBefore(past.attempts, Upcoming(past.done, Idle, []))
    requires past.done == past.sent && k < |past.attempts| && !past.attempts[k].ok && tag in past.attempts[k].landed
    ensures i < |past.done| && past.done[i].tag == tag && TimesInVain(past.attempts, tag, i) > 0
  {
    var a := past.attempts[k];
    assert Truthful(a, past.sent) && Before(a, Upcoming(past.done, Idle, []));
    i := Served(a, tag);
    assert a.cmds[LastOf(a.cmds, tag)] == past.sent[i];
    LandingServes(past.attempts, tag, {false}, k);
    hide Servings, LastOf, TagsOf;
  }

  /** A batch with two commands for the register delivered the first without writing it. */
  lemma CoalescingShows(past: History, tag: string, k: nat) returns (i: nat)
    requires AllTruthful(past.attempts, past.sent) && Chained(past.attempts, |past.done|)
    requires past.done == past.sent && k < |past.attempts| && past.attempts[k].ok && HoldsTwo(past.attempts[k], tag)
    ensures i < |past.done| && past.done[i].tag == tag && Coalesced(past.attempts, tag, i)
  {
    var a := past.attempts[k];
    assert Truthful(a, past.sent);
    var j, l :| 0 <= j < l < |a.cmds| && a.cmds[j].tag == a.cmds[l].tag == tag;
    assert tag in TagsOf(a.cmds);
    i := a.first + j;
    assert a.cmds[j] == past.sent[i];
    DeliveredBelow(past.attempts, |past.done|, k);
    assert Coalesces(a, tag, i);
    hide Chained, TagsOf;
  }

  lemma CoalescingHoldsTwo(a: Attempt, sent: seq<Command>, tag: string, i: nat)
    requires Truthful(a, sent) && i < |sent| && sent[i].tag == tag
    ensures Coalesces(a, tag, i) ==> HoldsTwo(a, tag)
  {
    if Coalesces(a, tag, i) {
      assert a.cmds[i - a.first] == sent[i] && a.cmds[LastOf(a.cmds, tag)].tag == tag;
    }
    hide TagsOf;
  }

  lemma NothingCoalesced(past: History, tag: string, i: nat)
    requires AllTruthful(past.attempts, past.sent) && NoneHoldsTwo(past.attempts, tag)
    requires i < |past.sent| && past.sent[i].tag == tag
    ensures !Coalesced(past.attempts, tag, i)
  {
    forall k | 0 <= k < |past.attempts| ensures Coalesces(past.attempts[k], tag, i) ==> HoldsTwo(past.attempts[k], tag) {
      CoalescingHoldsTwo(past.attempts[k], past.sent, tag, i);
    }
    hide HoldsTwo;
  }

  /** With every command delivered: each one for the register was written exactly once, by the
      transaction that delivered it, if and only if no failed transaction had written the
      register and no delivered batch held two commands for it. */
  lemma ExactlyOnceIff(L: Layout, s: Sys, es: seq<Event>, tag: string)
    requires Initial(L, s) && !Run(L, s, es).phase.Commanding? && Run(L, s, es).queue == []
    ensures var past := Run(L, s, es).past;
            WrittenOnceEach(past, tag) <==> NoneFailedLanded(past.attempts, tag) && NoneHoldsTwo(past.attempts, tag)
  {
    LogRun(L, s, es);
    OnceIff(Run(L, s, es), tag);
    hide Run, WrittenOnceEach, NoneFailedLanded, NoneHoldsTwo;
  }

  lemma OnceIff(t: Sys, tag: string)
    requires LogHolds(t) && !t.phase.Commanding? && t.queue == []
    ensures WrittenOnceEach(t.past, tag) <==> NoneFailedLanded(t.past.attempts, tag) && NoneHoldsTwo(t.past.attempts, tag)
  {
    var past := t.past;
    assert past.done + [] + [] == past.done;
    if NoneFailedLanded(past.attempts, tag) && NoneHoldsTwo(past.attempts, tag) {
      OnceIf(past, tag);
    } else {
      OnceOnlyIf(past, tag);
    }
    hide WrittenOnceEach, NoneFailedLanded, NoneHoldsTwo, AllTruthful, Ordered, Chained, AllBefore;
  }

  lemma OnceIf(past: History, tag: string)
    requires AllTruthful(past.attempts, past.sent) && Chained(past.attempts, |past.done|) && past.done == past.sent
    requires NoneFailedLanded(past.attempts, tag) && NoneHoldsTwo(past.attempts, tag)
    ensures WrittenOnceEach(past, tag)
  {
    SplitByOutcome(past.attempts, tag);
    NothingInVain(past.attempts, tag);
    forall i | 0 <= i < |past.done| && past.done[i].tag == tag
      ensures TimesWritten(past.attempts, tag, i) == 1 && TimesInVain(past.attempts, tag, i) == 0
    {
      NothingCoalesced(past, tag, i);
      DeliveredWrites(past.attempts, |past.done|, past.sent, tag, i);
    }
    hide Servings, Chained, Coalesced, NoneHoldsTwo, NoneFailedLanded, AllTruthful;
  }

  lemma OnceOnlyIf(past: History, tag: string)
    requires AllTruthful(past.attempts, past.sent) && Chained(past.attempts, |past.done|) && past.done == past.sent
    requires AllBefore(past.attempts, Upcoming(past.done, Idle, []))
    requires !NoneFailedLanded(past.attempts, tag) || !NoneHoldsTwo(past.attempts, tag)
    ensures !WrittenOnceEach(past, tag)
  {
    hide Servings, Chained, Coalesced, HoldsTwo, AllTruthful, AllBefore;
    if !NoneFailedLanded(past.attempts, tag) {
      var k :| 0 <= k < |past.attempts| && !past.attempts[k].ok && tag in past.attempts[k].landed;
      var i := FailureShows(past, tag, k);
    } else {
      var k :| 0 <= k < |past.attempts| && past.attempts[k].ok && HoldsTwo(past.attempts[k], tag);
      var i := CoalescingShows(past, tag, k);
      DeliveredWrites(past.attempts, |past.done|, past.sent, tag, i);
      SplitByOutcome(past.attempts, tag);
    }
  }

  // --- what the device saw ------------------------------------------------------------------------------

  function ValuesTo(writes: seq<Write>, tag: string): seq<Ext> {
    if writes == [] then []
    else
      var last := writes[|writes| - 1];
      ValuesTo(writes[..|writes| - 1], tag) + if last.tag == tag then [last.value] else []
  }

  /** What the transactions loaded for the register that they wrote. */
  function ServedValues(attempts: seq<Attempt>, tag: string, io: Tags): seq<Ext>
    requires tag in io
  {
    if attempts == [] then []
    else
      var init, last := attempts[..|attempts| - 1], attempts[|attempts| - 1];
      ServedValues(init, tag, io) + if Landing(last, tag) then [Clamped(io, tag, LastValue(last.cmds, tag).value)] else []
  }

  /** What was sent to the register, clamped. */
  function SentTo(cmds: seq<Command>, tag: string, io: Tags): seq<Ext>
    requires tag in io
  {
    if cmds == [] then []
    else
      var last := cmds[|cmds| - 1];
      SentTo(cmds[..|cmds| - 1], tag, io) + if last.tag == tag then [Clamped(io, tag, last.value)] else []
  }

  predicate WrittenNow(p: Phase, tag: string) {
    p.Commanding? && tag in p.written
  }

  /** Every write to the register is one transaction's. */
  ghost predicate WritesCounted(s: Sys, tag: string) {
    |ValuesTo(s.past.writes, tag)| == |Servings(s.past.attempts, tag, {true, false})| + if WrittenNow(s.phase, tag) then 1 else 0
  }

  ghost predicate WritesLogged(s: Sys, tag: string) {
    && tag in s.io && (WrittenNow(s.phase, tag) ==> tag in TagsOf(s.phase.cmds))
    && ValuesTo(s.past.writes, tag) == ServedValues(s.past.attempts, tag, s.io)
         + if WrittenNow(s.phase, tag) then [Clamped(s.io, tag, LastValue(s.phase.cmds, tag).value)] else []
  }

  lemma ValuesMore(writes: seq<Write>, w: Write, tag: string)
    ensures ValuesTo(writes + [w], tag) == ValuesTo(writes, tag) + if w.tag == tag then [w.value] else []
  {
    assert (writes + [w])[..|writes|] == writes;
  }

  lemma ServingsMore(attempts: seq<Attempt>, a: Attempt, tag: string, io: Tags)
    requires tag in io
    ensures ServedValues(attempts + [a], tag, io) ==
            ServedValues(attempts, tag, io) + if Landing(a, tag) then [Clamped(io, tag, LastValue(a.cmds, tag).value)] else []
    ensures |Servings(attempts + [a], tag, {true, false})| ==
            |Servings(attempts, tag, {true, false})| + if Landing(a, tag) then 1 else 0
  {
    assert (attempts + [a])[..|attempts|] == attempts;
    hide Served;
  }

  lemma {:induction false} ServedElsewhere(attempts: seq<Attempt>, tag: string, io: Tags, io': Tags)
    requires tag in io && SameChannels(io, io')
    ensures ServedValues(attempts, tag, io') == ServedValues(attempts, tag, io)
  {
    if attempts != [] { ServedElsewhere(attempts[..|attempts| - 1], tag, io, io'); }
    hide Landing, LastValue;
  }

  /** Which steps write, or end a transaction that wrote. */
  lemma WritingKept(L: Layout, s: Sys, e: Event, tag: string)
    requires !e.EndCommands? && !(e == Land(tag))
    ensures var t := Apply(L, s, e);
            && WrittenNow(t.phase, tag) == WrittenNow(s.phase, tag)
            && (WrittenNow(s.phase, tag) ==> t.phase.cmds == s.phase.cmds)
  {
    PhaseStep(L, s, e);
    hide Apply, AllGood, Goods, TagsOf, Targets;
  }

  lemma EndWrites(L: Layout, s: Sys, ok: bool, at: real, tag: string)
    requires PhaseFits(L, s.mirror, s.phase) && tag in s.io
    ensures var t := Apply(L, s, EndCommands(ok, at));
            && t.past.writes == s.past.writes && t.io == s.io
            && (WritesCounted(s, tag) ==> WritesCounted(t, tag)) && (WritesLogged(s, tag) ==> WritesLogged(t, tag))
  {
    hide Apply, ValuesTo, ServedValues, Servings, LastValue, TagsOf;
    EndCommandsStep(L, s, ok, at);
    if CommandsOver(s.phase, ok) {
      ServingsMore(s.past.attempts, Attempt(|s.past.done|, s.phase.cmds, s.phase.written, ok), tag, s.io);
    }
  }

  lemma CommandsTargeted(L: Layout, s: Sys, tag: string)
    requires Shaped(L, s) && tag in L.commands && Targets(s.phase, tag)
    ensures s.phase.Commanding?
  {
    hide TagsOf;
  }

  lemma LandWrites(L: Layout, s: Sys, tag: string)
    requires Shaped(L, s) && tag in L.commands
    ensures var t := Apply(L, s, Land(tag));
            && t.past.attempts == s.past.attempts && t.io == s.io
            && (WritesCounted(s, tag) ==> WritesCounted(t, tag))
            && (WritesLogged(s, tag) && Prepared(s.phase, s.io) ==> WritesLogged(t, tag))
  {
    hide Apply, ValuesTo, ServedValues, Servings, LastValue, TagsOf, StoresFit, MirrorFits;
    LandStep(L, s, tag);
    if Targets(s.phase, tag) && tag in s.io {
      ValuesMore(s.past.writes, Write(tag, s.io[tag].value), tag);
      CommandsTargeted(L, s, tag);
    }
  }

  lemma OtherWrites(L: Layout, s: Sys, e: Event, tag: string)
    requires Shaped(L, s) && !e.EndCommands? && !(e == Land(tag)) && tag in s.io
    ensures var t := Apply(L, s, e);
            (WritesCounted(s, tag) ==> WritesCounted(t, tag)) && (WritesLogged(s, tag) ==> WritesLogged(t, tag))
  {
    AttemptsKept(L, s, e);
    WritingKept(L, s, e, tag);
    IoStep(L, s, e);
    IoStays(L, s, e);
    ServedElsewhere(s.past.attempts, tag, s.io, IoAfter(L, s, e));
    WritesTell(L, s, e, tag);
    hide Apply, ValuesTo, ServedValues, Servings, LastValue, TagsOf, Shaped, IoAfter, Agree;
  }

  lemma WritesTell(L: Layout, s: Sys, e: Event, tag: string)
    requires e != Land(tag)
    ensures ValuesTo(Apply(L, s, e).past.writes, tag) == ValuesTo(s.past.writes, tag)
  {
    WritesGrow(L, s, e);
    if e.Land? && e.tag in s.io { ValuesMore(s.past.writes, Write(e.tag, s.io[e.tag].value), tag); }
    hide Apply, ValuesTo, Targets;
  }

  /** In any layout, the writes to a command register are as many as the transactions that wrote it. */
  lemma {:induction false} WritesAreCounted(L: Layout, s: Sys, es: seq<Event>, tag: string)
    requires Initial(L, s) && tag in L.commands
    ensures WritesCounted(Run(L, s, es), tag)
  {
    if es != [] {
      var init, last := es[..|es| - 1], es[|es| - 1];
      WritesAreCounted(L, s, init, tag);
      ShapedRun(L, s, init);
      WriteStep(L, Run(L, s, init), last, tag);
      hide Apply, Initial, WritesCounted, WritesLogged, Shaped, Prepared;
    }
  }

  lemma WriteStep(L: Layout, s: Sys, e: Event, tag: string)
    requires Shaped(L, s) && tag in L.commands
    ensures WritesCounted(s, tag) ==> WritesCounted(Apply(L, s, e), tag)
    ensures WritesLogged(s, tag) && Prepared(s.phase, s.io) ==> WritesLogged(Apply(L, s, e), tag)
  {
    assert Commandable(s.io, tag);
    if e.EndCommands? {
      EndWrites(L, s, e.ok, e.at, tag);
    } else if e == Land(tag) {
      LandWrites(L, s, tag);
    } else {
      OtherWrites(L, s, e, tag);
    }
    hide Apply, WritesCounted, WritesLogged, Prepared, MirrorFits, PhaseFits, Agree;
  }

  /** With nothing loaded disturbed, each transaction wrote the last command of its batch. */
  lemma {:induction false} WritesAreServed(L: Layout, s: Sys, es: seq<Event>, tag: string)
    requires Initial(L, s) && tag in L.commands && Undisturbed(L, s, es)
    ensures WritesLogged(Run(L, s, es), tag)
  {
    if es != [] {
      var init, last := es[..|es| - 1], es[|es| - 1];
      UndisturbedInit(L, s, es);
      WritesAreServed(L, s, init, tag);
      ShapedRun(L, s, init);
      HeldAtFirst(L, s);
      StillHeld(L, s, init);
      WriteStep(L, Run(L, s, init), last, tag);
      hide Apply, Initial, WritesLogged, Shaped, Prepared, Undisturbed, Conserved, Disturbs;
    } else {
      assert Commandable(s.io, tag);
    }
  }

  lemma {:induction false} SentAppend(a: seq<Command>, b: seq<Command>, tag: string, io: Tags)
    requires tag in io
    ensures SentTo(a + b, tag, io) == SentTo(a, tag, io) + SentTo(b, tag, io)
  {
    if b == [] {
      assert a + b == a;
    } else {
      assert (a + b)[..|a + b| - 1] == a + b[..|b| - 1];
      SentAppend(a, b[..|b| - 1], tag, io);
    }
  }

  lemma {:induction false} SentNone(cmds: seq<Command>, tag: string, io: Tags)
    requires tag in io && tag !in TagsOf(cmds)
    ensures SentTo(cmds, tag, io) == []
  {
    if cmds != [] {
      assert cmds[|cmds| - 1].tag in TagsOf(cmds);
      assert forall i :: 0 <= i < |cmds| - 1 ==> cmds[..|cmds| - 1][i] == cmds[i];
      SentNone(cmds[..|cmds| - 1], tag, io);
    }
  }

  lemma SentSingle(c: Command, io: Tags)
    requires c.tag in io
    ensures SentTo([c], c.tag, io) == [Clamped(io, c.tag, c.value)]
  {
    assert [c][..0] == [];
  }

  lemma NoneBesideLast(a: Attempt, tag: string)
    requires tag in TagsOf(a.cmds) && !HoldsTwo(a, tag)
    ensures var i := LastOf(a.cmds, tag);
            tag !in TagsOf(a.cmds[..i]) && tag !in TagsOf(a.cmds[i + 1..])
  {
    hide LastOf, LastValue;
  }

  /** A batch without two commands for the register writes all it holds for it. */
  lemma SentOne(a: Attempt, tag: string, io: Tags)
    requires tag in io && tag in TagsOf(a.cmds) && !HoldsTwo(a, tag)
    ensures SentTo(a.cmds, tag, io) == [Clamped(io, tag, LastValue(a.cmds, tag).value)]
  {
    hide SentTo, TagsOf, HoldsTwo, LastOf, LastValue, Clamped;
    var i := LastOf(a.cmds, tag);
    var before, after := a.cmds[..i], a.cmds[i + 1..];
    assert a.cmds == before + [a.cmds[i]] + after;
    NoneBesideLast(a, tag);
    SentAppend(before + [a.cmds[i]], after, tag, io);
    SentAppend(before, [a.cmds[i]], tag, io);
    SentNone(before, tag, io);
    SentNone(after, tag, io);
    SentSingle(a.cmds[i], io);
  }

  lemma {:induction false} ServedIsSent(attempts: seq<Attempt>, n: nat, sent: seq<Command>, tag: string, io: Tags)
    requires tag in io && Chained(attempts, n) && n <= |sent| && AllTruthful(attempts, sent)
    requires NoneFailedLanded(attempts, tag) && NoneHoldsTwo(attempts, tag)
    ensures ServedValues(attempts, tag, io) == SentTo(sent[..n], tag, io)
  {
    if attempts != [] {
      var init, last := attempts[..|attempts| - 1], attempts[|attempts| - 1];
      assert forall k :: 0 <= k < |init| ==> init[k] == attempts[k];
      ChainInit(attempts, n);
      ServedIsSent(init, last.first, sent, tag, io);
      assert Truthful(last, sent);
      if last.ok {
        assert sent[..n] == sent[..last.first] + last.cmds;
        SentAppend(sent[..last.first], last.cmds, tag, io);
        if tag in TagsOf(last.cmds) { SentOne(last, tag, io); } else { SentNone(last.cmds, tag, io); }
      }
    }
    hide Chained, SentTo, TagsOf, LastValue, HoldsTwo;
  }

  /** With every command delivered and nothing loaded disturbed, if no failed transaction wrote
      the register and no batch held two commands for it, the register has seen each value sent
      to it once, in order, and nothing else. */
  lemma RegisterSeesWhatWasSent(L: Layout, s: Sys, es: seq<Event>, tag: string)
    requires Initial(L, s) && tag in L.commands && Undisturbed(L, s, es)
    requires !Run(L, s, es).phase.Commanding? && Run(L, s, es).queue == []
    requires NoneFailedLanded(Run(L, s, es).past.attempts, tag) && NoneHoldsTwo(Run(L, s, es).past.attempts, tag)
    ensures var t := Run(L, s, es);
            tag in t.io && ValuesTo(t.past.writes, tag) == SentTo(t.past.sent, tag, t.io)
  {
    var t := Run(L, s, es);
    LogRun(L, s, es);
    WritesAreServed(L, s, es, tag);
    assert t.past.done + [] + [] == t.past.done && t.past.sent[..|t.past.done|] == t.past.sent;
    ServedIsSent(t.past.attempts, |t.past.done|, t.past.sent, tag, t.io);
    hide Run, Initial, Undisturbed, Chained, Ordered, AllTruthful, AllBefore, NoneFailedLanded, NoneHoldsTwo;
  }

  // --- two inputs that fail ----------------------------------------------------------------------------

  /** A command whose transaction lands but is reported failed is written again. */
  lemma CommandMayLandTwice(L: Layout, s: Sys, tag: string, v: Ext) returns (es: seq<Event>)
    requires Initial(L, s) && tag in L.commands
    ensures var t := Run(L, s, es);
            && t.past.sent == [Command(tag, v)] && t.phase == Idle && t.queue == []
            && t.past.writes == [Write(tag, Clamped(s.io, tag, v)), Write(tag, Clamped(s.io, tag, v))]
  {
    hide *;
    var c := Command(tag, v);
    var t: Sys;
    es, t := FirstSend(L, s, c);
    assert tag in s.io by { SameCommand(s.io, t.io, tag, v); }
    var w := Write(tag, Clamped(s.io, tag, v));
    es, t := OneTry(L, s, es, c, false);
    assert t.past.writes == [w] by { assert [] + [w] == [w]; }
    SameCommand(s.io, t.io, tag, v);
    es, t := OneTry(L, s, es, c, true);
    assert t.past.writes == [w] + [w];
  }

  lemma SameCommand(io: Tags, io': Tags, tag: string, v: Ext)
    requires SameChannels(io, io') && Commandable(io, tag)
    ensures tag in io && Commandable(io', tag) && Clamped(io', tag, v) == Clamped(io, tag, v)
  {}

  lemma FirstSend(L: Layout, s: Sys, c: Command) returns (es: seq<Event>, t: Sys)
    requires Initial(L, s) && c.tag in L.commands
    ensures t == Run(L, s, es) && t.phase == Idle && t.queue == [c] && t.past.sent == [c] && t.past.writes == []
    ensures t.io == s.io && Commandable(s.io, c.tag)
  {
    hide Apply, Initial;
    SendOne(L, s, c);
    es, t := Then(L, s, [], Send(c.tag, c.value));
  }

  lemma SendOne(L: Layout, s: Sys, c: Command)
    requires Initial(L, s) && c.tag in L.commands
    ensures var t := Apply(L, s, Send(c.tag, c.value));
            t.phase == Idle && t.queue == [c] && t.past.sent == [c] && t.past.writes == [] && t.io == s.io
    ensures Commandable(s.io, c.tag)
  {}

  lemma OneTry(L: Layout, s: Sys, before: seq<Event>, c: Command, ok: bool) returns (es: seq<Event>, t: Sys)
    requires var r := Run(L, s, before);
             r.phase == Idle && r.queue == [c] && Commandable(r.io, c.tag)
    ensures t == Run(L, s, es)
    ensures var r := Run(L, s, before);
            && t.phase == Idle && t.queue == (if ok then [] else [c]) && t.past.sent == r.past.sent
            && SameChannels(r.io, t.io)
            && t.past.writes == r.past.writes + [Write(c.tag, Clamped(r.io, c.tag, c.value))]
  {
    var r := Run(L, s, before);
    hide Run, Apply;
    es, t := Then(L, s, before, TakeCommands);
    TakeLoadLand(L, r, c);
    es, t := Then(L, s, es, LoadCommands);
    es, t := Then(L, s, es, Land(c.tag));
    EndOne(L, t, c, ok);
    es, t := Then(L, s, es, EndCommands(ok, 1.0));
  }

  lemma TakeLoadLand(L: Layout, r: Sys, c: Command)
    requires r.phase == Idle && r.queue == [c] && Commandable(r.io, c.tag)
    ensures var t := Apply(L, Apply(L, Apply(L, r, TakeCommands), LoadCommands), Land(c.tag));
            && t.phase == Commanding([c], true, {c.tag}) && t.queue == [] && SameChannels(r.io, t.io)
            && t.past == r.past.(writes := r.past.writes + [Write(c.tag, Clamped(r.io, c.tag, c.value))])
  {
    hide Apply, Loaded, LastValue, TagsOf;
    LoadedHoldsLast(r.io, [c], c.tag);
    OneTag(c);
    TakeCommandsStep(L, r);
    var q := r.(phase := Commanding([c], false, {}), queue := []);
    LoadCommandsStep(L, q);
    LoadKeepsAccount(L, q);
    PhaseStep(L, q, LoadCommands);
    LandStep(L, Apply(L, q, LoadCommands), c.tag);
  }

  lemma EndOne(L: Layout, s: Sys, c: Command, ok: bool)
    requires s.phase == Commanding([c], true, {c.tag}) && s.queue == []
    ensures var t := Apply(L, s, EndCommands(ok, 1.0));
            && t.phase == Idle && t.queue == (if ok then [] else [c]) && t.io == s.io
            && t.past.sent == s.past.sent && t.past.writes == s.past.writes
  {
    assert [c][0].tag in TagsOf([c]) && TagsOf([c]) == {c.tag} && [c] + [] == [c];
    hide TagsOf;
  }

  /** Of two commands for one register that meet in a batch, only the last is ever written. */
  lemma CommandMayNeverLand(L: Layout, s: Sys, tag: string, a: Ext, b: Ext)
    requires Initial(L, s) && tag in L.commands
    ensures var t := Run(L, s, [Send(tag, a), Send(tag, b)]
                               + [TakeCommands, LoadCommands, Land(tag), EndCommands(true, 1.0), Abort]);
            && t.past.sent == t.past.done == [Command(tag, a), Command(tag, b)] && t.phase == Idle && t.queue == []
            && tag in s.io && t.past.writes == [Write(tag, Clamped(s.io, tag, b))]
  {
    var two := [Send(tag, a), Send(tag, b)];
    var u := Apply(L, Apply(L, s, two[0]), two[1]);
    assert Run(L, s, two) == u by {
      assert Run(L, s, []) == s && two == [two[0]] + [two[1]] && [two[0]] == [] + [two[0]];
      RunStep(L, s, [], two[0]);
      RunStep(L, s, [two[0]], two[1]);
    }
    TwoSent(L, s, tag, a, b);
    TwoWritten(L, u, tag, a, b);
    RunAppend(L, s, two, [TakeCommands, LoadCommands, Land(tag), EndCommands(true, 1.0), Abort]);
    RunOfFive(L, u, TakeCommands, LoadCommands, Land(tag), EndCommands(true, 1.0), Abort);
    hide Run, Apply, Initial;
  }

  lemma TwoSent(L: Layout, s: Sys, tag: string, a: Ext, b: Ext)
    requires Initial(L, s) && tag in L.commands
    ensures var t := Apply(L, Apply(L, s, Send(tag, a)), Send(tag, b));
            var cmds := [Command(tag, a), Command(tag, b)];
            && t.phase == Idle && t.queue == t.past.sent == cmds && t.past.done == [] && t.past.writes == []
            && t.io == s.io && Commandable(s.io, tag)
  {}

  lemma TwoLoaded(L: Layout, s: Sys, tag: string, a: Ext, b: Ext)
    requires s.phase == Idle && s.queue == [Command(tag, a), Command(tag, b)] && Commandable(s.io, tag)
    ensures var t := Apply(L, Apply(L, s, TakeCommands), LoadCommands);
            && t.phase == Commanding(s.queue, true, {}) && t.queue == [] && t.past == s.past && TagsOf(s.queue) == {tag}
            && tag in t.io && t.io[tag].value == Clamped(s.io, tag, b)
  {
    var cmds := s.queue;
    assert cmds[1].tag in TagsOf(cmds) && TagsOf(cmds) == {tag};
    assert LastValue(cmds, tag) == Some(b);
    LoadedHoldsLast(s.io, cmds, tag);
    hide Loaded, LastValue, TagsOf, Overlay;
  }

  lemma TwoWritten(L: Layout, s: Sys, tag: string, a: Ext, b: Ext)
    requires s.phase == Idle && s.queue == [Command(tag, a), Command(tag, b)] && s.past.done == [] && s.past.writes == []
    requires Commandable(s.io, tag)
    ensures var loaded := Apply(L, Apply(L, s, TakeCommands), LoadCommands);
            var t := Apply(L, Apply(L, Apply(L, loaded, Land(tag)), EndCommands(true, 1.0)), Abort);
            && t.past.sent == s.past.sent && t.past.done == s.queue && t.phase == Idle && t.queue == []
            && t.past.writes == [Write(tag, Clamped(s.io, tag, b))]
  {
    TwoLoaded(L, s, tag, a, b);
    var u := Apply(L, Apply(L, s, TakeCommands), LoadCommands);
    LandedAndEnded(L, u, tag);
    hide Apply, TagsOf;
  }

  lemma LandedAndEnded(L: Layout, s: Sys, tag: string)
    requires s.phase.Commanding? && s.phase.prepared && s.phase.written == {} && TagsOf(s.phase.cmds) == {tag} && tag in s.io
    requires s.past.done == [] && s.past.writes == [] && s.queue == []
    ensures var t := Apply(L, Apply(L, Apply(L, s, Land(tag)), EndCommands(true, 1.0)), Abort);
            && t.past.sent == s.past.sent && t.past.done == s.phase.cmds && t.phase == Idle && t.queue == []
            && t.past.writes == [Write(tag, s.io[tag].value)]
  {
    hide Apply, TagsOf;
    LandStep(L, s, tag);
    var landed := Apply(L, s, Land(tag));
    assert landed.past.writes == [Write(tag, s.io[tag].value)] && landed.phase == Commanding(s.phase.cmds, true, {tag});
    EndCommandsStep(L, landed, true, 1.0);
    assert [] + s.phase.cmds == s.phase.cmds;
    NotReading(L, Apply(L, landed, EndCommands(true, 1.0)));
  }

  lemma NotReading(L: Layout, s: Sys)
    requires s.phase == Idle
    ensures Apply(L, s, Abort) == s
  {}
}
