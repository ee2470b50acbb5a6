/** One arbiter a channel, all resolved every cycle
    (class PowerAllocator of src/pyems/allocation/allocator.py). */
module Allocator {
  import opened Num
  import opened Requests
  import opened Board
  import opened Journal
  import opened Channels
  import opened Arbitration

  ghost predicate DistinctChannels(cfgs: seq<Config>) {
    forall i, j :: 0 <= i < j < |cfgs| ==> cfgs[i].channel != cfgs[j].channel
  }

  ghost predicate Configured(cfgs: seq<Config>, claims: map<string, Claims>) {
    AllKeyed(claims) && forall i :: 0 <= i < |cfgs| ==> cfgs[i].channel in claims
  }

  ghost function NextOf(cfg: Config, cycle: real, claims: map<string, Claims>, now: real, last: Option<real>): real
    requires AllKeyed(claims) && cfg.channel in claims
  {
    Resolved(cfg, cycle, Listing(claims[cfg.channel], now), last)
  }

  /** The verdicts one pass leaves on a channel, by requester. */
  ghost function VerdictsOf(cfg: Config, claims: map<string, Claims>, now: real): map<string, bool>
    requires AllKeyed(claims) && cfg.channel in claims
  {
    Marks(Envelope(cfg), Sort(Listing(claims[cfg.channel], now)))
  }

  /** A requester is marked rejected exactly if its live request is in the ranking and shares no
      operating point with what higher ranks left. */
  lemma MarkedRejectedIffDisjoint(cfg: Config, claims: map<string, Claims>, now: real, name: string)
    requires AllKeyed(claims) && cfg.channel in claims
    ensures var ranked, marks := Sort(Listing(claims[cfg.channel], now)), VerdictsOf(cfg, claims, now);
            name in marks && !marks[name] <==>
            exists i :: 0 <= i < |ranked| && ranked[i].requester == name && !Accepts(Envelope(cfg), ranked, i)
  {
    assert VerdictsOf(cfg, claims, now) == Marks(Envelope(cfg), Sort(Listing(claims[cfg.channel], now)));
    var live := Listing(claims[cfg.channel], now);
    SortCorrect(live);
    DistinctPermutation(live, Sort(live));
    RejectedInMarks(Envelope(cfg), Sort(live), name);
    hide *;
  }

  lemma RejectedInMarks(env: Span, ranked: seq<Request>, name: string)
    requires DistinctRequesters(ranked)
    ensures name in Marks(env, ranked) && !Marks(env, ranked)[name] <==>
            exists i :: 0 <= i < |ranked| && ranked[i].requester == name && !Accepts(env, ranked, i)
  {
    MarkedNames(map[], env, ranked, name);
    forall i | 0 <= i < |ranked|
      ensures ranked[i].requester in Marks(env, ranked) && Marks(env, ranked)[ranked[i].requester] == Accepts(env, ranked, i)
    {
      MarksAreVerdicts(env, ranked, i);
    }
    hide Marks, Accepts;
  }

  /** The setpoints one pass resolves, in the order of the configuration. */
  ghost function NextAll(
    cfgs: seq<Config>, cycle: real, claims: map<string, Claims>, now: real, lasts: seq<Option<real>>): (v: seq<real>)
    requires Configured(cfgs, claims) && |lasts| == |cfgs|
    ensures |v| == |cfgs|
  {
    seq(|cfgs|, i requires 0 <= i < |cfgs| => NextOf(cfgs[i], cycle, claims, now, lasts[i]))
  }

  /** The first n configured channels are purged of what expired; the others are not looked at. */
  function Purged(cfgs: seq<Config>, claims: map<string, Claims>, now: real, n: nat): map<string, Claims>
    requires n <= |cfgs|
  {
    map ch | ch in claims :: if exists i :: 0 <= i < n && cfgs[i].channel == ch then Purge(claims[ch], now) else claims[ch]
  }

  /** The first n resolved setpoints commanded, one after the other. */
  function CommandedFirst(tags: Tags, cfgs: seq<Config>, values: seq<real>, n: nat): (after: Tags)
    requires |values| == |cfgs| && n <= |cfgs|
    ensures after.Keys == tags.Keys
  {
    if n == 0 then tags
    else Commanded(CommandedFirst(tags, cfgs, values, n - 1), cfgs[n - 1].channel, Fin(values[n - 1]))
  }

  /** A pass commands each configured channel its own resolved value and touches nothing else. */
  lemma {:induction false} CommandedFirstAt(tags: Tags, cfgs: seq<Config>, values: seq<real>, n: nat)
    requires |values| == |cfgs| && DistinctChannels(cfgs) && n <= |cfgs|
    ensures SameChannels(tags, CommandedFirst(tags, cfgs, values, n))
    ensures forall i :: 0 <= i < n && Commandable(tags, cfgs[i].channel) ==>
              CommandedFirst(tags, cfgs, values, n)[cfgs[i].channel].value ==
              ClampE(Fin(values[i]), tags[cfgs[i].channel].min, tags[cfgs[i].channel].max)
    ensures forall name :: name in tags && (forall i :: 0 <= i < n ==> cfgs[i].channel != name) ==>
              CommandedFirst(tags, cfgs, values, n)[name] == tags[name]
  {
    if n > 0 {
      CommandedFirstAt(tags, cfgs, values, n - 1);
    }
  }

  lemma CommandedAt(tags: Tags, cfgs: seq<Config>, values: seq<real>, n: nat, i: nat)
    requires |values| == |cfgs| && DistinctChannels(cfgs) && i < n <= |cfgs| && Commandable(tags, cfgs[i].channel)
    ensures var ch := cfgs[i].channel;
            CommandedFirst(tags, cfgs, values, n)[ch].value == ClampE(Fin(values[i]), tags[ch].min, tags[ch].max)
  {
    CommandedFirstAt(tags, cfgs, values, n);
  }

  lemma PurgedOneMore(cfgs: seq<Config>, claims: map<string, Claims>, now: real, i: nat)
    requires DistinctChannels(cfgs) && Configured(cfgs, claims) && i < |cfgs|
    ensures Purged(cfgs, claims, now, i + 1) ==
            Purged(cfgs, claims, now, i)[cfgs[i].channel := Purge(claims[cfgs[i].channel], now)]
    ensures Purged(cfgs, claims, now, i)[cfgs[i].channel] == claims[cfgs[i].channel]
  {
    hide Purge;
  }

  lemma AlarmIdsAreOwn()
    ensures forall ch, name :: OwnId(ch, AlarmId(ch, name)) && AlarmId(ch, name).source == "allocation"
    ensures forall ch, id :: OwnId(ch, id) ==> id.source == "allocation"
  {
    forall ch, name ensures OwnId(ch, AlarmId(ch, name)) {
      AlarmIdInjective(ch, name, name);
    }
  }

  class PowerAllocator {
    const arbiters: seq<ChannelArbiter>
    const board: RequestBoard
    const cycle: real
    const journal: EventJournal?
    /** What each arbiter resolved last, and which requesters it saw honored or rejected. */
    ghost var lasts: seq<Option<real>>
    ghost var honors: seq<map<string, bool>>

    ghost function Cfgs(): (s: seq<Config>)
      ensures |s| == |arbiters| && forall i :: 0 <= i < |s| ==> s[i] == arbiters[i].cfg
    {
      seq(|arbiters|, i requires 0 <= i < |arbiters| => arbiters[i].cfg)
    }

    ghost function Journals(): set<object>
    {
      if journal == null then {} else {journal}
    }

    /** No channel's alarm keys can be mistaken for another's. */
    ghost predicate Wired() {
      && DistinctChannels(Cfgs())
      && (forall i :: 0 <= i < |arbiters| ==> arbiters[i].cycle == cycle && arbiters[i].journal == journal)
      && (forall i, j :: 0 <= i < j < |arbiters| ==> arbiters[i] != arbiters[j])
      && (forall i, j, id :: 0 <= i < |arbiters| && 0 <= j < |arbiters| && i != j ==>
            !(OwnId(arbiters[i].cfg.channel, id) && OwnId(arbiters[j].cfg.channel, id)))
    }

    ghost predicate Valid()
      reads this, arbiters, Journals()
    {
      && Wired()
      && |lasts| == |arbiters| && |honors| == |arbiters|
      && (journal != null ==> journal.Valid())
      && (forall i :: 0 <= i < |arbiters| ==> arbiters[i].AlarmsAgree())
      && (forall i :: 0 <= i < |arbiters| ==> arbiters[i].last == lasts[i] && arbiters[i].honored == honors[i])
    }

    twostate predicate OthersKept()
      reads Journals()
    {
      journal != null ==>
        forall id: Ident :: id.source != "allocation" ==> (id in journal.Latched() <==> id in old(journal.Latched()))
    }

    constructor (configs: seq<Config>, board: RequestBoard, cycle: real, journal: EventJournal?)
      requires DistinctChannels(configs)
      requires forall i, j, id :: 0 <= i < |configs| && 0 <= j < |configs| && i != j ==>
                 !(OwnId(configs[i].channel, id) && OwnId(configs[j].channel, id))
      requires journal != null ==> journal.Valid() && journal.Latched() == {}
      ensures Valid() && this.board == board && this.cycle == cycle && this.journal == journal
      ensures Cfgs() == configs && lasts == seq(|configs|, _ => None)
      ensures fresh(arbiters)
    {
      var made: seq<ChannelArbiter> := [];
      for i := 0 to |configs|
        invariant |made| == i && fresh(made)
        invariant forall k :: 0 <= k < i ==>
                    && made[k].cfg == configs[k] && made[k].cycle == cycle && made[k].journal == journal
                    && made[k].last == None && made[k].honored == map[]
        invariant forall j, k :: 0 <= j < k < i ==> made[j] != made[k]
      {
        var arbiter := new ChannelArbiter(configs[i], cycle, journal);
        made := made + [arbiter];
      }
      this.arbiters, this.board, this.cycle, this.journal := made, board, cycle, journal;
      lasts, honors := seq(|configs|, _ => None), seq(|configs|, _ => map[]);
    }

    /** One arbiter resolves; the alarms of the others still agree with what they saw. */
    method Turn(i: nat, requests: seq<Request>, now: real) returns (value: real)
      requires i < |arbiters| && Valid()
      modifies `lasts, `honors, arbiters[i], Journals()
      ensures Valid() && OthersKept()
      ensures value == Resolved(arbiters[i].cfg, cycle, requests, old(lasts)[i])
      ensures lasts == old(lasts)[i := Some(value)]
      ensures honors == old(honors)[i := Marks(Envelope(arbiters[i].cfg), Sort(requests))]
    {
      AlarmIdsAreOwn();
      hide Resolved, Marks, OwnId, AlarmId, DistinctChannels;
      value := arbiters[i].Resolve(requests, now);
      lasts := lasts[i := Some(value)];
      honors := honors[i := arbiters[i].honored];
    }

    method ResolveOne(i: nat, state: SystemState, now: real)
      requires i < |arbiters| && Valid() && board.Valid() && arbiters[i].cfg.channel in board.claims
      modifies `lasts, `honors, state, board`claims, arbiters[i], Journals()
      ensures Valid() && board.Valid() && OthersKept()
      ensures var ch := arbiters[i].cfg.channel;
              var v := NextOf(arbiters[i].cfg, cycle, old(board.claims), now, old(lasts)[i]);
              && lasts == old(lasts)[i := Some(v)]
              && state.tags == Commanded(old(state.tags), ch, Fin(v))
              && board.claims == old(board.claims)[ch := Purge(old(board.claims)[ch], now)]
              && honors == old(honors)[i := VerdictsOf(arbiters[i].cfg, old(board.claims), now)]
    {
      hide Valid, Commanded, Purge, Resolved, Marks, Keyed;
      var ch := arbiters[i].cfg.channel;
      var requests := board.ValidRequests(ch, now);
      var value := Turn(i, requests, now);
      var _ := state.Set(ch, Fin(value));
    }

    /** Where a pass over the first n arbiters stands, from what it started with. */
    ghost predicate Passed(n: nat, p: Pass, state: SystemState)
      reads this, board, state
    {
      && n <= |arbiters| == |lasts| == |honors| == |p.lasts| && Configured(Cfgs(), p.claims)
      && board.claims.Keys == p.claims.Keys && board.claims == Purged(Cfgs(), p.claims, p.now, n)
      && state.tags == CommandedFirst(p.tags, Cfgs(), NextAll(Cfgs(), cycle, p.claims, p.now, p.lasts), n)
      && (forall k :: n <= k < |arbiters| ==> lasts[k] == p.lasts[k])
      && forall k :: 0 <= k < n ==>
           && lasts[k] == Some(NextOf(Cfgs()[k], cycle, p.claims, p.now, p.lasts[k]))
           && honors[k] == VerdictsOf(Cfgs()[k], p.claims, p.now)
    }

    method Advance(i: nat, ghost p: Pass, state: SystemState, now: real)
      requires p.now == now && i < |arbiters| && Valid() && board.Valid() && Passed(i, p, state)
      modifies `lasts, `honors, state, board`claims, arbiters[i], Journals()
      ensures Valid() && board.Valid() && OthersKept() && Passed(i + 1, p, state)
    {
      hide Commanded, CommandedFirst, Purged, Purge, NextOf, VerdictsOf;
      assert DistinctChannels(Cfgs());
      PurgedOneMore(Cfgs(), p.claims, p.now, i);
      CommandedOneMore(p.tags, Cfgs(), NextAll(Cfgs(), cycle, p.claims, p.now, p.lasts), i);
      SameClaims(Cfgs()[i], cycle, p.claims, board.claims, p.now, p.lasts[i]);
      ResolveOne(i, state, now);
    }

    lemma PassStarts(state: SystemState, now: real)
      requires Valid() && Configured(Cfgs(), board.claims)
      ensures Passed(0, Pass(now, lasts, board.claims, state.tags), state)
    {}

    method Sweep(ghost p: Pass, state: SystemState, now: real)
      requires p.now == now && Valid() && board.Valid() && Passed(0, p, state)
      modifies `lasts, `honors, state, board`claims, arbiters, Journals()
      ensures Valid() && board.Valid() && OthersKept() && Passed(|arbiters|, p, state)
    {
      hide Valid, Passed;
      for i := 0 to |arbiters|
        invariant Valid() && board.Valid() && OthersKept() && Passed(i, p, state)
      {
        Advance(i, p, state, now);
      }
    }

    method Resolve(state: SystemState, now: real)
      requires Valid() && board.Valid() && Configured(Cfgs(), board.claims)
      modifies `lasts, `honors, state, board`claims, arbiters, Journals()
      ensures Valid() && board.Valid() && OthersKept()
      ensures Passed(|arbiters|, Pass(now, old(lasts), old(board.claims), old(state.tags)), state)
    {
      PassStarts(state, now);
      hide Valid, Passed;
      Sweep(Pass(now, lasts, board.claims, state.tags), state, now);
    }
  }

  /** What a pass starts with. */
  datatype Pass = Pass(now: real, lasts: seq<Option<real>>, claims: map<string, Claims>, tags: Tags)

  lemma SameClaims(
    cfg: Config, cycle: real, claims: map<string, Claims>, other: map<string, Claims>, now: real, last: Option<real>)
    requires AllKeyed(claims) && AllKeyed(other) && cfg.channel in claims && cfg.channel in other
    requires claims[cfg.channel] == other[cfg.channel]
    ensures NextOf(cfg, cycle, claims, now, last) == NextOf(cfg, cycle, other, now, last)
    ensures VerdictsOf(cfg, claims, now) == VerdictsOf(cfg, other, now)
  {}

  lemma CommandedOneMore(tags: Tags, cfgs: seq<Config>, values: seq<real>, i: nat)
    requires |values| == |cfgs| && i < |cfgs|
    ensures CommandedFirst(tags, cfgs, values, i + 1) ==
            Commanded(CommandedFirst(tags, cfgs, values, i), cfgs[i].channel, Fin(values[i]))
  {}
}
