/** The request board and its lazy purge of expired claims
    (src/pyems/allocation/request.py). */
module Board {
  import opened Num
  import opened Requests

  datatype Claim = Claim(request: Request, postedAt: real) {
    predicate Expired(now: real) {
      request.ttl.Some? && now - postedAt >= request.ttl.value
    }
  }

  /** A value in the request's range, and its target if it states one. */
  predicate Meets(r: Request, v: Ext) {
    Le(r.min, v) && Le(v, r.max) && (r.target.Some? ==> v == r.target.value)
  }

  /** A request is accepted if and only if its priority is a rank, some value meets it, and it is
      live when it is posted. */
  lemma AcceptedIff(r: Request, at: real)
    ensures r.Accepted() <==> r.priority >= 0 && (exists v :: Meets(r, v)) && !Claim(r, at).Expired(at)
  {
    assert Meets(r, if r.target.Some? then r.target.value else r.min) <== r.Accepted();
  }

  /** One channel's claims, keyed by requester. */
  type Claims = map<string, Claim>

  ghost predicate Keyed(claims: Claims) {
    forall k :: k in claims ==> claims[k].request.requester == k
  }

  ghost predicate AllKeyed(claims: map<string, Claims>) {
    forall ch :: ch in claims ==> Keyed(claims[ch])
  }

  ghost predicate IsLive(claims: Claims, now: real, r: Request) {
    r.requester in claims && claims[r.requester].request == r && !claims[r.requester].Expired(now)
  }

  /** s lists exactly the unexpired claims, highest rank first. */
  ghost predicate Lists(s: seq<Request>, claims: Claims, now: real) {
    Ranked(s) && forall r :: r in s <==> IsLive(claims, now, r)
  }

  lemma ListsUnique(s: seq<Request>, t: seq<Request>, claims: Claims, now: real)
    requires Lists(s, claims, now) && Lists(t, claims, now)
    ensures s == t
  {
    RankedUnique(s, t);
  }

  function Purge(claims: Claims, now: real): Claims {
    map k | k in claims && !claims[k].Expired(now) :: claims[k]
  }

  /** The list the arbiter is handed: which list it is does not depend on iteration order. */
  ghost function Listing(claims: Claims, now: real): (s: seq<Request>)
    requires Keyed(claims)
    ensures Lists(s, claims, now)
    ensures DistinctRequesters(s)
  {
    if claims == map[] then []
    else
      var k :| k in claims;
      var rest := Listing(claims - {k}, now);
      if claims[k].Expired(now) then rest
      else ListingInsert(claims, k, rest, now); Insert(claims[k].request, rest)
  }

  lemma ListingInsert(claims: Claims, k: string, rest: seq<Request>, now: real)
    requires Keyed(claims) && k in claims && !claims[k].Expired(now)
    requires Lists(rest, claims - {k}, now) && DistinctRequesters(rest)
    ensures Lists(Insert(claims[k].request, rest), claims, now)
    ensures DistinctRequesters(Insert(claims[k].request, rest))
  {
    var r := claims[k].request;
    var s := Insert(r, rest);
    forall i, j | 0 <= i < j < |rest| ensures !Outranks(rest[j], rest[i]) {
      OutranksTotal(rest[i], rest[j]);
    }
    InsertSorted(r, rest);
    InsertContents(r, rest);
    assert multiset(s) == multiset(rest + [r]);
    assert DistinctRequesters(rest + [r]) by {
      assert forall j :: 0 <= j < |rest| ==> rest[j] in rest;
    }
    DistinctPermutation(rest + [r], s);
    SortedDistinctIsRanked(s);
    forall x ensures x in s <==> IsLive(claims, now, x) {
      MemberOfPermutation(s, rest + [r], x);
    }
  }

  lemma SortedIsListing(live: seq<Request>, claims: Claims, now: real)
    requires Keyed(claims) && DistinctRequesters(live)
    requires forall r :: r in live <==> IsLive(claims, now, r)
    ensures Sort(live) == Listing(claims, now)
  {
    SortCorrect(live);
    DistinctPermutation(live, Sort(live));
    SortedDistinctIsRanked(Sort(live));
    forall r ensures r in Sort(live) <==> r in live {
      MemberOfPermutation(live, Sort(live), r);
    }
    ListsUnique(Sort(live), Listing(claims, now), claims, now);
  }

  lemma AppendDistinct(s: seq<Request>, r: Request)
    requires DistinctRequesters(s) && forall x :: x in s ==> x.requester != r.requester
    ensures DistinctRequesters(s + [r]) && forall x :: x in s + [r] <==> x == r || x in s
  {
    assert forall i :: 0 <= i < |s| ==> s[i] in s;
  }

  class RequestBoard {
    var claims: map<string, Claims>
    var now: real

    ghost predicate Valid()
      reads this
    {
      AllKeyed(claims)
    }

    constructor (channels: set<string>)
      ensures Valid()
      ensures claims == map ch | ch in channels :: map[]
      ensures now == 0.0
    {
      claims := map ch | ch in channels :: map[];
      now := 0.0;
    }

    method Tick(at: real)
      modifies this`now
      ensures now == at
    {
      now := at;
    }

    /** False stands for the ValueError against an unknown channel. */
    method Post(channel: string, request: Request, at: Option<real>) returns (ok: bool)
      requires Valid()
      modifies this`claims
      ensures Valid()
      ensures ok == (channel in old(claims))
      ensures claims == Posted(old(claims), channel, Claim(request, if at.Some? then at.value else now))
    {
      ok := channel in claims;
      if ok {
        var postedAt := if at.Some? then at.value else now;
        claims := claims[channel := claims[channel][request.requester := Claim(request, postedAt)]];
      }
    }

    method Withdraw(channel: string, requester: string) returns (ok: bool)
      requires Valid()
      modifies this`claims
      ensures Valid()
      ensures ok == (channel in old(claims))
      ensures claims == Withdrawn(old(claims), channel, requester)
    {
      ok := channel in claims;
      if ok {
        claims := claims[channel := claims[channel] - {requester}];
      }
    }

    method ValidRequests(channel: string, at: real) returns (live: seq<Request>)
      requires Valid() && channel in claims
      modifies this`claims
      ensures Valid()
      ensures live == Listing(old(claims)[channel], at)
      ensures claims == old(claims)[channel := Purge(old(claims)[channel], at)]
    {
      var kept;
      live, kept := Sweep(claims[channel], at);
      SortedIsListing(live, claims[channel], at);
      claims := claims[channel := kept];
      live := Sort(live);
    }
  }

  /** Visits the claims in an arbitrary order, as a dictionary may hold them in any. */
  method Sweep(claims: Claims, at: real) returns (live: seq<Request>, kept: Claims)
    requires Keyed(claims)
    ensures DistinctRequesters(live) && forall r :: r in live <==> IsLive(claims, at, r)
    ensures kept == Purge(claims, at)
  {
    var todo := claims.Keys;
    live, kept := [], claims;
    while todo != {}
      invariant todo <= claims.Keys
      invariant kept == map k | k in claims && (k in todo || !claims[k].Expired(at)) :: claims[k]
      invariant forall r :: r in live <==> r.requester !in todo && IsLive(claims, at, r)
      invariant DistinctRequesters(live)
    {
      var k :| k in todo;
      if claims[k].Expired(at) {
        kept := kept - {k};
      } else {
        AppendDistinct(live, claims[k].request);
        live := live + [claims[k].request];
      }
      todo := todo - {k};
    }
  }

  function Posted(claims: map<string, Claims>, channel: string, claim: Claim): map<string, Claims> {
    if channel in claims
    then claims[channel := claims[channel][claim.request.requester := claim]]
    else claims
  }

  function Withdrawn(claims: map<string, Claims>, channel: string, requester: string): map<string, Claims> {
    if channel in claims then claims[channel := claims[channel] - {requester}] else claims
  }

  // --- the board against a log that never forgets ---------------------------

  datatype Op =
    | Post(channel: string, request: Request, at: real)
    | Withdraw(channel: string, requester: string)
    | Query(channel: string, at: real)

  function Apply(claims: map<string, Claims>, op: Op): map<string, Claims> {
    match op
    case Post(ch, r, at) => Posted(claims, ch, Claim(r, at))
    case Withdraw(ch, name) => Withdrawn(claims, ch, name)
    case Query(ch, at) => if ch in claims then claims[ch := Purge(claims[ch], at)] else claims
  }

  function AfterOps(claims: map<string, Claims>, ops: seq<Op>): map<string, Claims> {
    if ops == [] then claims
    else Apply(AfterOps(claims, ops[..|ops| - 1]), ops[|ops| - 1])
  }

  /** The requester's latest post on the channel, unless withdrawn since. Nothing expires here. */
  function Latest(ops: seq<Op>, channel: string, requester: string): Option<Claim> {
    if ops == [] then None
    else
      var init := ops[..|ops| - 1];
      match ops[|ops| - 1]
      case Post(ch, r, at) =>
        if ch == channel && r.requester == requester then Some(Claim(r, at))
        else Latest(init, channel, requester)
      case Withdraw(ch, name) =>
        if ch == channel && name == requester then None
        else Latest(init, channel, requester)
      case Query(_, _) => Latest(init, channel, requester)
  }

  /** No posting or query happens before an earlier one, nor after t. */
  ghost predicate Chronological(ops: seq<Op>, t: real) {
    && (forall i :: 0 <= i < |ops| && !ops[i].Withdraw? ==> ops[i].at <= t)
    && (forall i, j :: 0 <= i < j < |ops| && !ops[i].Withdraw? && !ops[j].Withdraw? ==> ops[i].at <= ops[j].at)
  }

  lemma {:induction false} BoardMatchesLog(channels: set<string>, ops: seq<Op>, t: real, ch: string, name: string)
    requires Chronological(ops, t) && ch in channels
    ensures var claims := AfterOps(map c | c in channels :: map[], ops);
            var logged := Latest(ops, ch, name);
            && claims.Keys == channels && AllKeyed(claims)
            && (name in claims[ch] ==> logged == Some(claims[ch][name]))
            && (name !in claims[ch] && logged.Some? ==> logged.value.Expired(t))
  {
    if ops != [] {
      var init, last := ops[..|ops| - 1], ops[|ops| - 1];
      var upTo := if last.Withdraw? then t else last.at;
      assert Chronological(init, upTo);
      BoardMatchesLog(channels, init, upTo, ch, name);
    }
  }

  /** Purging lazily is invisible: a query answers, in rank order, exactly each
      requester's latest post that is neither withdrawn since nor expired. */
  lemma QueryAnswersFromLog(channels: set<string>, ops: seq<Op>, ch: string, now: real, r: Request)
    requires Chronological(ops, now) && ch in channels
    ensures var claims := AfterOps(map c | c in channels :: map[], ops);
            && ch in claims && Keyed(claims[ch])
            && Ranked(Listing(claims[ch], now))
            && (r in Listing(claims[ch], now) <==>
                var logged := Latest(ops, ch, r.requester);
                && logged.Some? && logged.value.request == r
                && (r.ttl.None? || now < logged.value.postedAt + r.ttl.value))
  {
    BoardMatchesLog(channels, ops, now, ch, r.requester);
  }
}
