/** When a setpoint is written again: on a change, the first time, and at the keep-alive period
    (src/pyems/drivers/cached.py), on every interleaving, in any layout. */
module Cadence {
  import opened CachedDriver
  import opened Interleaving
  import opened SetpointFlow

  /** The step ends a delivered flush that took the name along. */
  predicate Delivers(s: Sys, e: Event, n: string) {
    e.EndFlush? && e.ok && FlushOver(s.phase, true) && n in s.phase.pending
  }

  /** The step publishes another value for the name than the cached one, or its first. */
  predicate Changes(s: Sys, e: Event, n: string) {
    e.Publish? && n in s.gathered && (n !in s.mirror.cache || s.mirror.cache[n] != s.gathered[n])
  }

  /** The last step of a run that delivered the name, or -1. */
  function LastDelivery(L: Layout, s: Sys, n: string, es: seq<Event>): (k: int)
    ensures -1 <= k < |es|
    ensures k >= 0 ==> Delivers(Run(L, s, es[..k]), es[k], n)
  {
    if es == [] then -1
    else
      var init := es[..|es| - 1];
      if Delivers(Run(L, s, init), es[|es| - 1], n) then |es| - 1
      else
        var k := LastDelivery(L, s, n, init);
        assert k >= 0 ==> init[..k] == es[..k] && init[k] == es[k];
        k
  }

  /** The flush that ended with step k delivered something else than was cached by then. */
  predicate Outdated(L: Layout, s: Sys, n: string, es: seq<Event>, k: nat)
    requires k < |es| && Delivers(Run(L, s, es[..k]), es[k], n)
  {
    var t := Run(L, s, es[..k]);
    n !in t.mirror.cache || t.mirror.cache[n] != t.phase.pending[n]
  }

  ghost predicate ChangesAfter(L: Layout, s: Sys, n: string, es: seq<Event>, k: int) {
    exists m: nat :: k < m < |es| && Changes(Run(L, s, es[..m]), es[m], n)
  }

  /** The cached value has changed since the last delivered flush began and was not back when it
      ended, or has changed since it ended; or nothing was delivered yet. */
  ghost predicate NewSince(L: Layout, s: Sys, n: string, es: seq<Event>) {
    var k := LastDelivery(L, s, n, es);
    k < 0 || Outdated(L, s, n, es, k) || ChangesAfter(L, s, n, es, k)
  }

  // --- the mirror tells ---------------------------------------------------------------------------

  /** What a flush carries that is clean is what is cached. */
  ghost predicate Carries(p: Phase, m: Mirror) {
    p.Flushing? ==> forall n :: n in p.pending ==> n in m.cache && (n !in m.dirty ==> m.cache[n] == p.pending[n])
  }

  lemma PublishCarries(m: Mirror, values: Values, p: Phase)
    requires Carries(p, m)
    ensures Carries(p, Published(m, values))
  {}

  lemma TakeCarries(m: Mirror, now: real, rewrite: real)
    ensures Carries(Flushing(Due(m, now, rewrite), false, {}), m)
  {}

  lemma CarriesStep(L: Layout, s: Sys, e: Event)
    requires Carries(s.phase, s.mirror)
    ensures Carries(Apply(L, s, e).phase, Apply(L, s, e).mirror)
  {
    hide Apply, Carries, Published, Due, Settled;
    match e
    case Publish =>
      PublishStep(L, s);
      PublishCarries(s.mirror, s.gathered, s.phase);
    case TakeDue(now) =>
      PhaseStep(L, s, e);
      MirrorKept(L, s, e);
      TakeCarries(s.mirror, now, L.rewrite);
    case EndFlush(ok, at) =>
      EndFlushStep(L, s, ok, at);
      IdleCarries(Apply(L, s, e).mirror);
    case _ =>
      MirrorKept(L, s, e);
      FlushKept(L, s, e);
      SameCarries(s.phase, Apply(L, s, e).phase, s.mirror);
  }

  lemma IdleCarries(m: Mirror)
    ensures Carries(Idle, m)
  {}

  lemma SameCarries(p: Phase, q: Phase, m: Mirror)
    requires Carries(p, m) && (q.Flushing? ==> p.Flushing? && q.pending == p.pending)
    ensures Carries(q, m)
  {}

  lemma FlushKept(L: Layout, s: Sys, e: Event)
    requires !e.TakeDue?
    ensures Apply(L, s, e).phase.Flushing? ==> s.phase.Flushing? && Apply(L, s, e).phase.pending == s.phase.pending
  {
    PhaseStep(L, s, e);
    hide Apply, AllGood, Goods, TagsOf;
  }

  lemma {:induction false} CarriesRun(L: Layout, s: Sys, es: seq<Event>)
    requires Carries(s.phase, s.mirror)
    ensures Carries(Run(L, s, es).phase, Run(L, s, es).mirror)
  {
    if es != [] {
      hide Apply, Carries;
      CarriesRun(L, s, es[..|es| - 1]);
      CarriesStep(L, Run(L, s, es[..|es| - 1]), es[|es| - 1]);
    }
  }

  /** What one step does to the name's dirty mark and its stamp. */
  lemma MarkStep(L: Layout, s: Sys, e: Event, n: string)
    requires Carries(s.phase, s.mirror)
    ensures var m, t := s.mirror, Apply(L, s, e).mirror;
            if Delivers(s, e, n) then
              && (n in t.dirty <==> n in m.cache && m.cache[n] != s.phase.pending[n])
              && n in t.flushedAt && t.flushedAt[n] == e.at
            else
              && (n in t.dirty <==> n in m.dirty || Changes(s, e, n))
              && (n in t.flushedAt <==> n in m.flushedAt) && (n in m.flushedAt ==> t.flushedAt[n] == m.flushedAt[n])
  {
    hide Apply;
    match e
    case Publish =>
      PublishStep(L, s);
    case EndFlush(ok, at) =>
      EndFlushStep(L, s, ok, at);
    case _ =>
      MirrorKept(L, s, e);
  }

  /** The dirty mark says that the cached value is new since the last delivery, and the stamp when
      that was. */
  ghost predicate Told(L: Layout, s: Sys, n: string, es: seq<Event>) {
    var m, k := Run(L, s, es).mirror, LastDelivery(L, s, n, es);
    && (n in m.cache ==> (n in m.dirty <==> NewSince(L, s, n, es)))
    && (n !in m.cache ==> n !in m.dirty && !ChangesAfter(L, s, n, es, k) && k < 0)
    && (n in m.flushedAt <==> k >= 0) && (k >= 0 ==> m.flushedAt[n] == es[k].at)
  }

  lemma NewMore(L: Layout, s: Sys, n: string, es: seq<Event>, e: Event)
    requires !Delivers(Run(L, s, es), e, n)
    ensures LastDelivery(L, s, n, es + [e]) == LastDelivery(L, s, n, es)
    ensures var k := LastDelivery(L, s, n, es);
            && (ChangesAfter(L, s, n, es + [e], k) <==> ChangesAfter(L, s, n, es, k) || Changes(Run(L, s, es), e, n))
            && (k >= 0 ==> (es + [e])[..k] == es[..k] && (es + [e])[k] == es[k])
  {
    hide Run, Delivers, Changes;
    var k, more := LastDelivery(L, s, n, es), es + [e];
    assert more[..|es|] == es;
    forall m: nat | m < |es| ensures more[..m] == es[..m] && more[m] == es[m] {}
    if ChangesAfter(L, s, n, es, k) {
      var m: nat :| k < m < |es| && Changes(Run(L, s, es[..m]), es[m], n);
      assert Changes(Run(L, s, more[..m]), more[m], n);
    }
    if Changes(Run(L, s, es), e, n) { assert Changes(Run(L, s, more[..|es|]), more[|es|], n); }
  }

  lemma DeliveredNow(L: Layout, s: Sys, n: string, es: seq<Event>, e: Event)
    requires Delivers(Run(L, s, es), e, n)
    ensures LastDelivery(L, s, n, es + [e]) == |es| && (es + [e])[..|es|] == es
    ensures !ChangesAfter(L, s, n, es + [e], |es|)
  {
    hide Run, Delivers, Changes;
    assert (es + [e])[..|es|] == es;
  }

  lemma CacheMore(L: Layout, s: Sys, e: Event, n: string)
    ensures n in Apply(L, s, e).mirror.cache <==> n in s.mirror.cache || Changes(s, e, n)
  {
    hide Apply;
    if e.Publish? { PublishStep(L, s); } else { CacheKept(L, s, e); }
  }

  lemma ToldStep(L: Layout, s: Sys, n: string, es: seq<Event>, e: Event)
    requires Told(L, s, n, es) && Carries(Run(L, s, es).phase, Run(L, s, es).mirror)
    ensures Told(L, s, n, es + [e])
  {
    var t := Run(L, s, es);
    RunStep(L, s, es, e);
    MarkStep(L, t, e, n);
    CacheMore(L, t, e, n);
    hide Run, Apply, Changes, ChangesAfter, LastDelivery;
    if Delivers(t, e, n) {
      DeliveredNow(L, s, n, es, e);
    } else {
      NewMore(L, s, n, es, e);
      hide Delivers;
    }
  }

  lemma {:induction false} AlwaysTold(L: Layout, s: Sys, n: string, es: seq<Event>)
    requires Initial(L, s)
    ensures Told(L, s, n, es)
  {
    if es != [] {
      var init, last := es[..|es| - 1], es[|es| - 1];
      hide Told, Run, Carries, Initial;
      AlwaysTold(L, s, n, init);
      StartCarries(L, s);
      CarriesRun(L, s, init);
      ToldStep(L, s, n, init, last);
      assert init + [last] == es;
    } else {
      hide Told;
      ToldAtFirst(L, s, n);
    }
  }

  lemma ToldAtFirst(L: Layout, s: Sys, n: string)
    requires Initial(L, s)
    ensures Told(L, s, n, [])
  {
    hide Apply;
  }

  lemma StartCarries(L: Layout, s: Sys)
    requires Initial(L, s)
    ensures Carries(s.phase, s.mirror)
  {}

  // --- what is written, and when ----------------------------------------------------------------------

  /** A write of the name is called for: it is new since the last delivery, or that was at least the
      keep-alive period ago. */
  ghost predicate CalledFor(L: Layout, s: Sys, n: string, es: seq<Event>, now: real) {
    var k := LastDelivery(L, s, n, es);
    NewSince(L, s, n, es) || (k >= 0 && now - es[k].at >= L.rewrite)
  }

  lemma DueTells(m: Mirror, n: string, now: real, rewrite: real)
    requires n in m.cache && m.ready
    ensures n in Due(m, now, rewrite) <==> n in m.dirty || n !in m.flushedAt || now - m.flushedAt[n] >= rewrite
  {}

  /** A flush takes a cached name if and only if its cached value is new since it was last delivered,
      it never was, or at least the keep-alive period has passed since. */
  lemma TakesIffCalledFor(L: Layout, s: Sys, es: seq<Event>, n: string, now: real)
    requires Initial(L, s) && Run(L, s, es).phase.Idle? && n in Run(L, s, es).mirror.cache
    ensures var t := Apply(L, Run(L, s, es), TakeDue(now));
            t.phase.Flushing? && n in t.phase.pending <==> CalledFor(L, s, n, es, now)
  {
    var t := Run(L, s, es);
    AlwaysTold(L, s, n, es);
    ShapedRun(L, s, es);
    assert MirrorFits(L, t.mirror);
    PhaseStep(L, t, TakeDue(now));
    DueTells(t.mirror, n, now, L.rewrite);
    hide Run, Apply, NewSince, LastDelivery, Due, Shaped, Initial;
  }

  lemma FlushGoesOn(L: Layout, s: Sys, e: Event)
    requires !(e.TakeDue? && s.phase.Idle?)
    ensures Apply(L, s, e).phase.Flushing? ==> s.phase.Flushing? && Apply(L, s, e).phase.pending == s.phase.pending
  {
    hide Apply;
    if e.TakeDue? { PhaseStep(L, s, e); } else { FlushKept(L, s, e); }
  }

  lemma StartsIdle(L: Layout, s: Sys)
    requires Initial(L, s)
    ensures s.phase.Idle?
  {}

  /** The step that took what the flush under way carries. */
  lemma {:induction false} TakenAt(L: Layout, s: Sys, es: seq<Event>) returns (m: nat)
    requires Initial(L, s) && Run(L, s, es).phase.Flushing?
    ensures m < |es| && es[m].TakeDue? && Run(L, s, es[..m]).phase.Idle?
    ensures var t := Apply(L, Run(L, s, es[..m]), es[m]);
            t.phase.Flushing? && t.phase.pending == Run(L, s, es).phase.pending
  {
    StartsIdle(L, s);
    hide Apply, Initial;
    assert es != [];
    var init, last := es[..|es| - 1], es[|es| - 1];
    var u := Run(L, s, init);
    if !(last.TakeDue? && u.phase.Idle?) { FlushGoesOn(L, u, last); }
    if last.TakeDue? && u.phase.Idle? {
      m := |init|;
    } else {
      m := TakenAt(L, s, init);
      assert init[..m] == es[..m];
    }
  }

  lemma TakenCached(L: Layout, s: Sys, now: real, n: string)
    requires s.phase.Idle?
    ensures var t := Apply(L, s, TakeDue(now));
            t.phase.Flushing? && n in t.phase.pending ==> n in s.mirror.cache
  {
    PhaseStep(L, s, TakeDue(now));
    hide Apply;
  }

  /** No setpoint is written needlessly: whatever register a flush writes, on any run, a write of it
      was called for when the flush began. */
  lemma NoNeedlessWrite(L: Layout, s: Sys, es: seq<Event>, n: string) returns (m: nat)
    requires Initial(L, s) && Run(L, s, es).phase.Flushing? && Targets(Run(L, s, es).phase, n)
    ensures m < |es| && es[m].TakeDue? && CalledFor(L, s, n, es[..m], es[m].now)
  {
    m := TakenAt(L, s, es);
    TakenCached(L, Run(L, s, es[..m]), es[m].now, n);
    hide Run, Apply, CalledFor, Initial;
    TakesIffCalledFor(L, s, es[..m], n, es[m].now);
  }

  /** A setpoint that is only republished is written at the keep-alive period and not before. */
  lemma RepublishedIsKeptAlive(L: Layout, s: Sys, es: seq<Event>, n: string, now: real)
    requires Initial(L, s) && Run(L, s, es).phase.Idle? && LastDelivery(L, s, n, es) >= 0
    requires !Outdated(L, s, n, es, LastDelivery(L, s, n, es))
    requires forall m: nat :: LastDelivery(L, s, n, es) < m < |es| && es[m].Publish? ==>
               var t := Run(L, s, es[..m]);
               n in t.gathered ==> n in t.mirror.cache && t.gathered[n] == t.mirror.cache[n]
    ensures var t := Apply(L, Run(L, s, es), TakeDue(now));
            t.phase.Flushing? && n in t.phase.pending <==> now - es[LastDelivery(L, s, n, es)].at >= L.rewrite
  {
    AlwaysTold(L, s, n, es);
    hide Run, Apply, LastDelivery, Outdated, Initial;
    TakesIffCalledFor(L, s, es, n, now);
    assert !ChangesAfter(L, s, n, es, LastDelivery(L, s, n, es));
  }
}
