/** Several devices behind shared bus endpoints: reads, failures and reconnects
    (src/pyems/drivers/composite.py). */
module Composite {

  /** A bus endpoint; devices may share one. */
  type Endpoint = nat

  /** How one device's read ended. A device that answers, even with an error, has a live link. */
  datatype Outcome = Good | Transport | Answered | OtherError

  datatype Device = Device(id: string, endpoint: Endpoint)

  type Devices = seq<Device>

  ghost predicate DistinctIds(ds: Devices) {
    forall i, j :: 0 <= i < j < |ds| ==> ds[i].id != ds[j].id
  }

  /** The devices whose read failed, among the first n. */
  function Failed(ds: Devices, os: seq<Outcome>, n: nat): set<string>
    requires n <= |ds| == |os|
  {
    set i | 0 <= i < n && os[i] != Good :: ds[i].id
  }

  function Touched(ds: Devices, os: seq<Outcome>, o: Outcome, n: nat): set<Endpoint>
    requires n <= |ds| == |os|
  {
    set i | 0 <= i < n && os[i] == o :: ds[i].endpoint
  }

  /** A sibling that reads well clears the endpoint, whatever another ran into. */
  function DownNext(ds: Devices, down: set<Endpoint>, os: seq<Outcome>): set<Endpoint>
    requires |ds| == |os|
  {
    down + Touched(ds, os, Transport, |ds|) - Touched(ds, os, Good, |ds|)
  }

  function Uses(ds: Devices, n: nat): set<Endpoint>
    requires n <= |ds|
  {
    set i | 0 <= i < n :: ds[i].endpoint
  }

  /** The endpoints of s in the order in which the first n devices meet them, each once. */
  function MetFirst(ds: Devices, s: set<Endpoint>, n: nat): (met: seq<Endpoint>)
    requires n <= |ds|
  {
    if n == 0 then []
    else
      var e := ds[n - 1].endpoint;
      if e in s && e !in Uses(ds, n - 1) then MetFirst(ds, s, n - 1) + [e] else MetFirst(ds, s, n - 1)
  }

  /** Each endpoint of s in use is met, and met once. */
  lemma {:induction false} MetOnce(ds: Devices, s: set<Endpoint>, n: nat)
    requires n <= |ds|
    ensures var met := MetFirst(ds, s, n);
            && (forall e :: e in met <==> e in s && e in Uses(ds, n))
            && forall i, j :: 0 <= i < j < |met| ==> met[i] != met[j]
  {
    if n > 0 {
      MetOnce(ds, s, n - 1);
      assert Uses(ds, n) == Uses(ds, n - 1) + {ds[n - 1].endpoint};
    }
  }

  class CompositeDriver {
    const devices: Devices
    /** Endpoints with a transport failure not cleared since. */
    var down: set<Endpoint>

    constructor (devices: Devices)
      requires DistinctIds(devices)
      ensures this.devices == devices && down == {}
    {
      this.devices, down := devices, {};
    }

    /** The devices whose driver is called: shared clients connect, and disconnect, once. */
    method Visit() returns (called: seq<nat>, visited: seq<Endpoint>)
      ensures |called| == |visited| && forall i :: 0 <= i < |called| ==> called[i] < |devices| && devices[called[i]].endpoint == visited[i]
      ensures visited == MetFirst(devices, Uses(devices, |devices|), |devices|)
    {
      var seen := {};
      called, visited := [], [];
      for i := 0 to |devices|
        invariant seen == Uses(devices, i)
        invariant |called| == |visited|
        invariant forall k :: 0 <= k < |called| ==> called[k] < |devices| && devices[called[k]].endpoint == visited[k]
        invariant visited == MetFirst(devices, Uses(devices, |devices|), i)
      {
        var e := devices[i].endpoint;
        if e !in seen {
          seen := seen + {e};
          called, visited := called + [i], visited + [e];
        }
      }
    }

    /** os[i] is how device i's read ends. Returns the failed ids, empty if nothing is raised,
        and the endpoints reconnected, in order, each before the first read over it. */
    method ReadPerDevice(os: seq<Outcome>) returns (failed: set<string>, reconnected: seq<Endpoint>)
      requires |os| == |devices|
      modifies this
      ensures failed == Failed(devices, os, |devices|)
      ensures down == DownNext(devices, old(down), os)
      ensures reconnected == MetFirst(devices, old(down), |devices|)
    {
      var toReconnect := down;
      var newDown, healthy := {}, {};
      failed, reconnected := {}, [];
      MetOnce(devices, toReconnect, 0);
      assert Failed(devices, os, 0) == {};
      assert Touched(devices, os, Transport, 0) == {} && Touched(devices, os, Good, 0) == {};
      hide Failed, Touched, DownNext;
      for i := 0 to |devices|
        invariant failed == Failed(devices, os, i)
        invariant newDown == Touched(devices, os, Transport, i) && healthy == Touched(devices, os, Good, i)
        invariant reconnected == MetFirst(devices, toReconnect, i)
        invariant down == toReconnect
      {
        MetOnce(devices, toReconnect, i);
        TouchedOneMore(devices, os, Transport, i);
        TouchedOneMore(devices, os, Good, i);
        FailedOneMore(devices, os, i);
        var d := devices[i];
        if d.endpoint in toReconnect && d.endpoint !in reconnected {
          reconnected := reconnected + [d.endpoint];
        }
        if os[i] != Good {
          failed := failed + {d.id};
          if os[i] == Transport { newDown := newDown + {d.endpoint}; }
        } else {
          healthy := healthy + {d.endpoint};
        }
      }
      down := down + newDown;
      down := down - healthy;
      assert down == DownNext(devices, toReconnect, os) by { DownNextIs(devices, toReconnect, os); }
    }
  }

  lemma DownNextIs(ds: Devices, down: set<Endpoint>, os: seq<Outcome>)
    requires |ds| == |os|
    ensures DownNext(ds, down, os) == down + Touched(ds, os, Transport, |ds|) - Touched(ds, os, Good, |ds|)
  {}

  lemma FailedOneMore(ds: Devices, os: seq<Outcome>, n: nat)
    requires n < |ds| == |os|
    ensures Failed(ds, os, n + 1) == Failed(ds, os, n) + if os[n] != Good then {ds[n].id} else {}
  {}

  lemma TouchedOneMore(ds: Devices, os: seq<Outcome>, o: Outcome, n: nat)
    requires n < |ds| == |os|
    ensures Touched(ds, os, o, n + 1) == Touched(ds, os, o, n) + if os[n] == o then {ds[n].endpoint} else {}
  {}

  /** The ids reported are exactly those of the devices that failed. */
  lemma FailedIdsExact(ds: Devices, os: seq<Outcome>, i: nat)
    requires DistinctIds(ds) && i < |ds| == |os|
    ensures ds[i].id in Failed(ds, os, |ds|) <==> os[i] != Good
  {
    assert forall j :: 0 <= j < |ds| && ds[j].id == ds[i].id ==> j == i;
  }

  // --- reconnects against the trace -------------------------------------------------------------

  type Poll = seq<Outcome>

  ghost predicate Fits(ds: Devices, polls: seq<Poll>) {
    forall k :: 0 <= k < |polls| ==> |polls[k]| == |ds|
  }

  function DownAfter(ds: Devices, polls: seq<Poll>): set<Endpoint>
    requires Fits(ds, polls)
  {
    if polls == [] then {} else DownNext(ds, DownAfter(ds, polls[..|polls| - 1]), polls[|polls| - 1])
  }

  /** In poll k some device on e had a transport failure, and from poll k on none on e read well. */
  ghost predicate LostSince(ds: Devices, polls: seq<Poll>, e: Endpoint, k: nat)
    requires Fits(ds, polls)
  {
    && k < |polls| && e in Touched(ds, polls[k], Transport, |ds|)
    && forall j :: k <= j < |polls| ==> e !in Touched(ds, polls[j], Good, |ds|)
  }

  /** An endpoint is marked down exactly if it had a transport failure in some poll since which,
      that poll included, no device on it read well. */
  lemma {:induction false} DownIffLost(ds: Devices, polls: seq<Poll>, e: Endpoint)
    requires Fits(ds, polls)
    ensures e in DownAfter(ds, polls) <==> exists k: nat :: LostSince(ds, polls, e, k)
  {
    if polls != [] {
      var init, last := polls[..|polls| - 1], |polls| - 1;
      DownIffLost(ds, init, e);
      forall k: nat ensures LostSince(ds, polls, e, k) <==>
                            e !in Touched(ds, polls[last], Good, |ds|) &&
                            (LostSince(ds, init, e, k) || (k == last && e in Touched(ds, polls[last], Transport, |ds|)))
      {
        hide Touched;
        assert k < last ==> init[k] == polls[k];
      }
      hide Touched;
      if e in DownAfter(ds, init) {
        var k: nat :| LostSince(ds, init, e, k);
        assert LostSince(ds, polls, e, k) <==> e !in Touched(ds, polls[last], Good, |ds|);
      }
      assert LostSince(ds, polls, e, last) <==>
             e !in Touched(ds, polls[last], Good, |ds|) && e in Touched(ds, polls[last], Transport, |ds|);
    }
  }

  /** Each poll reconnects exactly the endpoints that were down before it, each once; what
      fails during it is left to the next. */
  lemma ReconnectsTheDown(ds: Devices, polls: seq<Poll>, e: Endpoint)
    requires Fits(ds, polls) && e in Uses(ds, |ds|)
    ensures var met := MetFirst(ds, DownAfter(ds, polls), |ds|);
            && (e in met <==> exists k: nat :: LostSince(ds, polls, e, k))
            && forall i, j :: 0 <= i < j < |met| ==> met[i] != met[j]
  {
    MetOnce(ds, DownAfter(ds, polls), |ds|);
    DownIffLost(ds, polls, e);
  }
}
