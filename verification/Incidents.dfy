/** The incident detector: it recomputes the active set from a snapshot and keeps known starting times. */
module Incidents {
  import opened Wrappers
  import opened HealthSpec
  import opened TrackerSpec
  import opened IncidentSpec
  import opened Tracking

  /** What one pass over the endpoints of a path finds out. */
  datatype Summary = Summary(allUnhealthy: bool, allDegradedOrWorse: bool, best: Option<real>, healthyPeers: nat)

  ghost predicate Summarizes(m: Book, places: set<Place>, s: Summary) {
    SumsUpStates(m, places, s) && SumsUpLatencies(m, places, s.best)
  }

  ghost predicate SumsUpStates(m: Book, places: set<Place>, s: Summary) {
    && (s.allUnhealthy <==> forall p :: p in places && p in m ==> m[p].state == Unhealthy)
    && (s.allDegradedOrWorse <==> forall p :: p in places && p in m ==> !Up(m[p].state))
    && (s.healthyPeers > 0 <==> exists p :: p in places && p in m && Up(m[p].state))
  }

  ghost predicate SumsUpLatencies(m: Book, places: set<Place>, best: Option<real>) {
    && (best.Some? ==> exists p :: p in places && p in m && LatencyOf(m[p]) > 0.0 && best.value == LatencyOf(m[p]))
    && (forall p :: p in places && p in m && LatencyOf(m[p]) > 0.0 ==> best.Some? && best.value <= LatencyOf(m[p]))
  }

  function Peers(m: Book, path: string): set<Place> {
    set p | p in m && p.path == path
  }

  /** One endpoint's contribution to the summary of its path. */
  method AddEndpoint(s: Summary, st: Stats) returns (t: Summary)
    ensures t.allUnhealthy == (s.allUnhealthy && st.state == Unhealthy)
    ensures t.allDegradedOrWorse == (s.allDegradedOrWorse && !Up(st.state))
    ensures t.healthyPeers == s.healthyPeers + if Up(st.state) then 1 else 0
    ensures t.best == BetterOf(s.best, LatencyOf(st))
  {
    t := s;
    if st.state != Unhealthy {
      t := t.(allUnhealthy := false);
    }
    if Up(st.state) {
      t := t.(allDegradedOrWorse := false, healthyPeers := t.healthyPeers + 1);
    }
    if LatencyOf(st) > 0.0 {
      if t.best.None? || LatencyOf(st) < t.best.value {
        t := t.(best := Some(LatencyOf(st)));
      }
    }
  }

  method Summarize(m: Book, places: set<Place>) returns (s: Summary)
    requires places <= m.Keys
    ensures Summarizes(m, places, s)
  {
    s := Summary(true, true, None, 0);
    var todo := places;
    ghost var done: set<Place> := {};
    while todo != {}
      invariant todo <= m.Keys && done + todo == places
      invariant SumsUpStates(m, done, s)
      invariant SumsUpLatencies(m, done, s.best)
      decreases todo
    {
      var p :| p in todo;
      var t := AddEndpoint(s, m[p]);
      OneMoreState(m, done, s, p, t);
      OneMoreLatency(m, done, s.best, p);
      s := t;
      todo := todo - {p};
      done := done + {p};
    }
    assert done == places;
  }

  function BetterOf(best: Option<real>, mine: real): Option<real> {
    if mine > 0.0 && (best.None? || mine < best.value) then Some(mine) else best
  }

  lemma OneMoreState(m: Book, done: set<Place>, s: Summary, p: Place, t: Summary)
    requires p in m && SumsUpStates(m, done, s)
    requires t.allUnhealthy == (s.allUnhealthy && m[p].state == Unhealthy)
    requires t.allDegradedOrWorse == (s.allDegradedOrWorse && !Up(m[p].state))
    requires t.healthyPeers == s.healthyPeers + if Up(m[p].state) then 1 else 0
    ensures SumsUpStates(m, done + {p}, t)
  {
    assert p in done + {p};
  }

  lemma OneMoreLatency(m: Book, done: set<Place>, best: Option<real>, p: Place)
    requires p in m && SumsUpLatencies(m, done, best)
    ensures SumsUpLatencies(m, done + {p}, BetterOf(best, LatencyOf(m[p])))
  {
    assert p in done + {p};
  }

  class Detector {
    const tracker: Tracker
    const limits := Limits(5.0, 0.3)
    var active: Active

    constructor (tracker: Tracker)
      ensures this.tracker == tracker && active == map[]
    {
      this.tracker := tracker;
      active := map[];
    }

    /** The incidents of one endpoint, given what its path looks like. */
    method OfEndpoint(m: Book, p: Place, s: Summary) returns (found: set<Key>)
      requires p in m
      requires Summarizes(m, Peers(m, p.path), s)
      ensures found == ActiveAt(limits, m, p)
    {
      EndpointConditions(limits, m, p, s);
      found := {};
      if !Up(m[p].state) && s.healthyPeers > 0 {
        found := found + {Key(ProviderDegradation, p.path, p.endpoint)};
      }
      if m[p].requests >= 10 {
        var rate := m[p].failures as real / m[p].requests as real;
        if rate >= limits.failRate {
          found := found + {Key(DnsErrorSpike, p.path, p.endpoint)};
        }
      }
      if s.best.Some? && LatencyOf(m[p]) > 0.0 && s.best.value > 0.0
         && LatencyOf(m[p]) >= limits.latencyX * s.best.value && LatencyOf(m[p]) >= 200.0
      {
        found := found + {Key(LatencyDegradation, p.path, p.endpoint)};
      }
    }

    /** All incidents of one path. */
    method OfPath(m: Book, path: string) returns (found: set<Key>)
      requires HasEndpoints(m, path)
      ensures forall k :: k in found <==> k.path == path && IsActive(limits, m, k)
    {
      var places := Peers(m, path);
      assert forall p :: p in m && p.path == path <==> p in places;
      var s := Summarize(m, places);
      found := {};
      if s.allUnhealthy {
        found := {Key(UpstreamUnavailable, path, "")};
      } else if s.allDegradedOrWorse {
        found := {Key(TransportDegradation, path, "")};
      }
      ghost var general := found;
      var todo := places;
      while todo != {}
        invariant todo <= places
        invariant forall k :: k in found <==>
                    k in general || (Specific(k.kind) && k.path == path && IsActive(limits, m, k)
                                     && Place(k.path, k.endpoint) !in todo)
        decreases todo
      {
        var p :| p in todo;
        var more := OfEndpoint(m, p, s);
        assert forall k ::
            k in more <==> Specific(k.kind) && Place(k.path, k.endpoint) == p && IsActive(limits, m, k);
        found := found + more;
        todo := todo - {p};
      }
    }

    /** All incidents of all paths. */
    method FindAll(m: Book) returns (found: set<Key>)
      ensures forall k :: k in found <==> IsActive(limits, m, k)
    {
      found := {};
      var todo := set p | p in m :: p.path;
      assert forall k :: IsActive(limits, m, k) ==> k.path in todo;
      while todo != {}
        invariant forall path :: path in todo ==> HasEndpoints(m, path)
        invariant forall k :: k in found ==> IsActive(limits, m, k)
        invariant forall k :: IsActive(limits, m, k) && k.path !in todo ==> k in found
        decreases todo
      {
        var path :| path in todo;
        var more := OfPath(m, path);
        found := found + more;
        todo := todo - {path};
      }
    }

    /** Refreshes the active set from the tracker and lists it by kind, path and endpoint. */
    method Evaluate(now: int) returns (out: seq<Incident>)
      requires tracker.Valid()
      modifies this, tracker.stats.Values
      ensures tracker.Valid() && tracker.stats == old(tracker.stats)
      ensures tracker.View() == RefreshEvery(old(tracker.View()), now)
      ensures IsNext(Limits(5.0, 0.3), old(active), Evaluation(tracker.View(), now), active)
      ensures IsListing(active, out)
    {
      var snaps := tracker.Snapshot(now);
      var found := FindAll(snaps);
      active := map k | k in found :: if k in active then active[k] else now;
      out := Listing();
    }

    /** Every active incident once, by kind, then path, then endpoint. */
    method Listing() returns (out: seq<Incident>)
      ensures IsListing(active, out)
    {
      var ks := SortedKeys(active.Keys);
      var current := active;
      out := seq(|ks|, i requires 0 <= i < |ks| && ks[i] in current => Report(ks[i], current[ks[i]]));
      assert Lists(active, ks, out);
    }

    method ActiveCount() returns (n: nat)
      ensures n == |active|
    {
      n := |active|;
    }
  }

  method SortedKeys(keys: set<Key>) returns (ks: seq<Key>)
    ensures Ascending(ks)
    ensures forall k :: k in ks ==> k in keys
    ensures forall k :: k in keys ==> k in ks
  {
    ks := [];
    var todo := keys;
    while todo != {}
      invariant todo <= keys && Ascending(ks)
      invariant forall k :: k in ks ==> k in keys - todo
      invariant forall k :: k in keys - todo ==> k in ks
      decreases todo
    {
      var k :| k in todo;
      InsertAscends(k, ks);
      ks := InsertKey(k, ks);
      todo := todo - {k};
    }
  }

  /** The active incidents that name the endpoint. */
  ghost function ActiveAt(l: Limits, m: Book, p: Place): set<Key> {
    (if IsActive(l, m, Key(ProviderDegradation, p.path, p.endpoint))
     then {Key(ProviderDegradation, p.path, p.endpoint)} else {})
    + (if IsActive(l, m, Key(DnsErrorSpike, p.path, p.endpoint)) then {Key(DnsErrorSpike, p.path, p.endpoint)} else {})
    + (if IsActive(l, m, Key(LatencyDegradation, p.path, p.endpoint))
       then {Key(LatencyDegradation, p.path, p.endpoint)} else {})
  }

  lemma EndpointConditions(l: Limits, m: Book, p: Place, s: Summary)
    requires p in m && l.latencyX >= 0.0
    requires Summarizes(m, Peers(m, p.path), s)
    ensures IsActive(l, m, Key(ProviderDegradation, p.path, p.endpoint)) <==> !Up(m[p].state) && s.healthyPeers > 0
    ensures IsActive(l, m, Key(DnsErrorSpike, p.path, p.endpoint)) <==>
            m[p].requests >= 10 && m[p].failures as real / m[p].requests as real >= l.failRate
    ensures IsActive(l, m, Key(LatencyDegradation, p.path, p.endpoint)) <==>
            s.best.Some? && LatencyOf(m[p]) > 0.0 && s.best.value > 0.0
            && LatencyOf(m[p]) >= l.latencyX * s.best.value && LatencyOf(m[p]) >= 200.0
  {
    var peers := Peers(m, p.path);
    assert forall q :: q in m && q.path == p.path <==> q in peers;
    SlowAgainstBest(l, m, p, s);
  }

  predicate Specific(k: Kind) {
    k.ProviderDegradation? || k.DnsErrorSpike? || k.LatencyDegradation?
  }

  /** Comparing with the best peer decides whether some peer makes the endpoint slow. */
  lemma SlowAgainstBest(l: Limits, m: Book, p: Place, s: Summary)
    requires p in m && l.latencyX >= 0.0
    requires Summarizes(m, Peers(m, p.path), s)
    ensures Slow(l, m, p) <==>
            s.best.Some? && LatencyOf(m[p]) > 0.0 && s.best.value > 0.0
            && LatencyOf(m[p]) >= l.latencyX * s.best.value && LatencyOf(m[p]) >= 200.0
  {
    var peers := Peers(m, p.path);
    assert forall q :: q in m && q.path == p.path <==> q in peers;
    if Slow(l, m, p) {
      var q :| q in m && q.path == p.path && LatencyOf(m[q]) > 0.0 && LatencyOf(m[p]) >= l.latencyX * LatencyOf(m[q]);
      AgainstBest(l.latencyX, LatencyOf(m[p]), s.best.value, LatencyOf(m[q]));
    }
  }
}
