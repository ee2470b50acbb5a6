/** Standing claims on setpoint channels and their ranking
    (src/pyems/allocation/request.py). */
module Requests {
  import opened Num
  import opened Names

  datatype Request = Request(
    requester: string,
    priority: int,
    min: Ext,
    max: Ext,
    target: Option<Ext>,
    ttl: Option<real>)
  {
    /** What construction accepts; anything else raises ValueError. */
    predicate Accepted() {
      && Le(min, max)
      && (target.Some? ==> Le(min, target.value) && Le(target.value, max))
      && priority >= 0
      && (ttl.Some? ==> ttl.value > 0.0)
    }

    predicate Covers(x: real) {
      Le(min, Fin(x)) && Le(Fin(x), max)
    }
  }

  /** The sort key (priority, requester). */
  predicate Outranks(p: Request, q: Request) {
    p.priority < q.priority || (p.priority == q.priority && NameLess(p.requester, q.requester))
  }

  predicate SameKey(p: Request, q: Request) {
    p.priority == q.priority && p.requester == q.requester
  }

  lemma OutranksTotal(p: Request, q: Request)
    ensures SameKey(p, q) || Outranks(p, q) || Outranks(q, p)
    ensures !(Outranks(p, q) && Outranks(q, p))
    ensures SameKey(p, q) ==> !Outranks(p, q)
  {
    NameLessTotal(p.requester, q.requester);
  }

  lemma OutranksTransitive(p: Request, q: Request, r: Request)
    requires Outranks(p, q) && Outranks(q, r)
    ensures Outranks(p, r)
  {
    if p.priority == q.priority == r.priority {
      NameLessTransitive(p.requester, q.requester, r.requester);
    }
  }

  /** Strictly ranked, so no two elements share a key. */
  ghost predicate Ranked(s: seq<Request>) {
    forall i, j :: 0 <= i < j < |s| ==> Outranks(s[i], s[j])
  }

  /** Sorted as Python sorts: nothing is outranked by a later element. */
  ghost predicate Sorted(s: seq<Request>) {
    forall i, j :: 0 <= i < j < |s| ==> !Outranks(s[j], s[i])
  }

  ghost predicate DistinctRequesters(s: seq<Request>) {
    forall i, j :: 0 <= i < j < |s| ==> s[i].requester != s[j].requester
  }

  // --- the sort itself -----------------------------------------------------

  /** Places r after every element it does not outrank, so equal keys keep their order. */
  function Insert(r: Request, s: seq<Request>): seq<Request> {
    if s == [] then [r]
    else if Outranks(r, s[0]) then [r] + s
    else [s[0]] + Insert(r, s[1..])
  }

  function Sort(s: seq<Request>): seq<Request> {
    if s == [] then [] else Insert(s[|s| - 1], Sort(s[..|s| - 1]))
  }

  lemma {:induction false} InsertContents(r: Request, s: seq<Request>)
    ensures multiset(Insert(r, s)) == multiset(s) + multiset{r}
    ensures |Insert(r, s)| == |s| + 1
  {
    if s != [] {
      assert s == [s[0]] + s[1..];
      if !Outranks(r, s[0]) { InsertContents(r, s[1..]); }
    }
  }

  lemma {:induction false} InsertSorted(r: Request, s: seq<Request>)
    requires Sorted(s)
    ensures Sorted(Insert(r, s))
  {
    if s != [] {
      var t := Insert(r, s[1..]);
      if Outranks(r, s[0]) {
        forall j | 0 <= j < |s| ensures !Outranks(s[j], r) {
          if Outranks(s[j], r) { OutranksTransitive(s[j], r, s[0]); OutranksTotal(s[j], s[0]); }
        }
      } else {
        InsertSorted(r, s[1..]);
        InsertContents(r, s[1..]);
        forall j | 0 <= j < |t| ensures !Outranks(t[j], s[0]) {
          assert t[j] in multiset(t);
          assert t[j] == r || t[j] in s[1..];
        }
      }
    }
  }

  lemma {:induction false} SortCorrect(s: seq<Request>)
    ensures Sorted(Sort(s))
    ensures multiset(Sort(s)) == multiset(s)
    ensures |Sort(s)| == |s|
  {
    if s != [] {
      var init, last := s[..|s| - 1], s[|s| - 1];
      assert s == init + [last];
      SortCorrect(init);
      InsertSorted(last, Sort(init));
      InsertContents(last, Sort(init));
    }
  }

  lemma MemberOfPermutation(s: seq<Request>, t: seq<Request>, r: Request)
    requires multiset(s) == multiset(t)
    ensures r in s <==> r in t
  {
    assert r in s <==> r in multiset(s);
    assert r in t <==> r in multiset(t);
  }

  lemma RankedTail(s: seq<Request>, r: Request)
    requires Ranked(s) && s != []
    ensures r in s[1..] <==> r in s && r != s[0]
  {
    OutranksTotal(s[0], s[0]);
    assert s == [s[0]] + s[1..];
  }

  /** Two ranked lists with the same members are the same list. */
  lemma {:induction false} RankedUnique(s: seq<Request>, t: seq<Request>)
    requires Ranked(s) && Ranked(t)
    requires forall r :: r in s <==> r in t
    ensures s == t
  {
    assert t != [] ==> t[0] in t;
    if s != [] {
      assert s[0] in s;
      if s[0] != t[0] {
        assert Outranks(s[0], t[0]) by { assert t[0] in s; }
        assert Outranks(t[0], s[0]) by { assert s[0] in t; }
        OutranksTotal(s[0], t[0]);
      }
      assert s == [s[0]] + s[1..] && t == [t[0]] + t[1..];
      forall r ensures r in s[1..] <==> r in t[1..] {
        RankedTail(s, r);
        RankedTail(t, r);
      }
      RankedUnique(s[1..], t[1..]);
    }
  }

  lemma SortedDistinctIsRanked(s: seq<Request>)
    requires Sorted(s) && DistinctRequesters(s)
    ensures Ranked(s)
  {
    forall i, j | 0 <= i < j < |s| ensures Outranks(s[i], s[j]) {
      OutranksTotal(s[i], s[j]);
    }
  }

  lemma DistinctPermutation(s: seq<Request>, t: seq<Request>)
    requires multiset(s) == multiset(t) && DistinctRequesters(s)
    ensures DistinctRequesters(t)
  {
    forall i, j | 0 <= i < j < |t| ensures t[i].requester != t[j].requester {
      if t[i].requester == t[j].requester {
        MemberOfPermutation(s, t, t[i]);
        MemberOfPermutation(s, t, t[j]);
        var a :| 0 <= a < |s| && s[a] == t[i];
        var b :| 0 <= b < |s| && s[b] == t[j];
        assert a == b;
        TwiceInMultiset(t, i, j);
        OnceInMultiset(s, a);
      }
    }
  }

  lemma TwiceInMultiset(t: seq<Request>, i: nat, j: nat)
    requires i < j < |t| && t[i] == t[j]
    ensures multiset(t)[t[i]] >= 2
  {
    assert t == t[..i] + [t[i]] + t[i + 1..j] + [t[j]] + t[j + 1..];
  }

  lemma OnceInMultiset(s: seq<Request>, a: nat)
    requires a < |s| && DistinctRequesters(s)
    ensures multiset(s)[s[a]] == 1
  {
    assert s == s[..a] + [s[a]] + s[a + 1..];
    assert s[a] !in s[..a] && s[a] !in s[a + 1..];
  }

  /** Whatever order claims were posted in, one ranked list comes out. */
  lemma PostingOrderIrrelevant(s: seq<Request>, t: seq<Request>)
    requires multiset(s) == multiset(t) && DistinctRequesters(s)
    ensures Sort(s) == Sort(t)
    ensures Ranked(Sort(s))
  {
    SortCorrect(s);
    SortCorrect(t);
    DistinctPermutation(s, Sort(s));
    DistinctPermutation(s, Sort(t));
    SortedDistinctIsRanked(Sort(s));
    SortedDistinctIsRanked(Sort(t));
    forall r ensures r in Sort(s) <==> r in Sort(t) {
      MemberOfPermutation(Sort(s), Sort(t), r);
    }
    RankedUnique(Sort(s), Sort(t));
  }

  /** Two claims under one key: then the posting order does show. */
  lemma SharedKeyKeepsPostingOrder()
    ensures var p := Request("plan", 5, Fin(0.0), Fin(1.0), None, None);
            var q := Request("plan", 5, Fin(2.0), Fin(3.0), None, None);
            Sort([p, q]) == [p, q] && Sort([q, p]) == [q, p]
  {
    var p := Request("plan", 5, Fin(0.0), Fin(1.0), None, None);
    var q := Request("plan", 5, Fin(2.0), Fin(3.0), None, None);
    OutranksTotal(p, q);
    OutranksTotal(q, p);
    assert [p, q][..1] == [p] && [q, p][..1] == [q];
    assert Sort([p]) == Insert(p, Sort([p][..0])) == [p];
    assert Sort([q]) == Insert(q, Sort([q][..0])) == [q];
    assert Insert(q, [p]) == [p] + Insert(q, []);
    assert Insert(p, [q]) == [q] + Insert(p, []);
  }
}
