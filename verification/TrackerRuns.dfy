/**
 Runs of a whole tracker. Each endpoint evolves as if it were alone (EndpointAlone), so everything
 proved of single-endpoint histories holds of every endpoint of every run; in particular no mix of
 State, Order, PathState, OrderTransports and Snapshot calls is ever noticed by an endpoint.
*/
module TrackerRuns {
  import opened Wrappers
  import opened HealthSpec
  import opened Ranking
  import opened TrackerSpec
  import One = HealthRuns

  datatype Op =
    | Succeed(place: Place, latency: int)
    | Fail(place: Place)
    | ReadState(place: Place)
    | ReadOrder(path: string, endpoints: seq<string>)
    | ReadPaths(paths: set<string>)   // PathState and OrderTransports
    | ReadAll                         // Snapshot

  datatype Event = Event(op: Op, time: int)

  function Apply(m: Book, e: Event): Book {
    match e.op
    case Succeed(p, latency) => RecordSuccess(m, p, latency, e.time)
    case Fail(p) => RecordFailure(m, p, e.time)
    case ReadState(p) => Touch(m, p, e.time)
    case ReadOrder(path, endpoints) => OrderTouches(m, path, endpoints, e.time)
    case ReadPaths(paths) => RefreshPaths(m, paths, e.time)
    case ReadAll => RefreshEvery(m, e.time)
  }

  function After(run: seq<Event>): Book {
    if run == [] then map[] else Apply(After(run[..|run| - 1]), run[|run| - 1])
  }

  ghost predicate Timely(run: seq<Event>) {
    forall i, j :: 0 <= i < j < |run| ==> run[i].time <= run[j].time
  }

  function Records(run: seq<Event>): seq<Event> {
    if run == [] then []
    else
      var before, e := Records(run[..|run| - 1]), run[|run| - 1];
      if e.op.Succeed? || e.op.Fail? then before + [e] else before
  }

  // ---------- one endpoint's share of a run ----------

  /** What an operation is to one endpoint; None if it leaves the endpoint alone. */
  function Share(op: Op, p: Place): Option<One.What> {
    match op
    case Succeed(q, latency) => if q == p then Some(One.Succeeded(latency)) else None
    case Fail(q) => if q == p then Some(One.FailedOnce) else None
    case ReadState(q) => if q == p then Some(One.Read) else None
    case ReadOrder(path, endpoints) =>
      if |endpoints| > 1 && p.path == path && p.endpoint in endpoints then Some(One.Read) else None
    case ReadPaths(paths) => if p.path in paths then Some(One.Read) else None
    case ReadAll => Some(One.Read)
  }

  function Shares(run: seq<Event>, p: Place): seq<One.Event> {
    if run == [] then []
    else
      var before, s := Shares(run[..|run| - 1], p), Share(run[|run| - 1].op, p);
      if s.None? then before else before + [One.Event(s.value, run[|run| - 1].time)]
  }

  lemma {:induction false} ApplyToOne(m: Book, e: Event, p: Place)
    ensures Lookup(Apply(m, e), p) ==
            match Share(e.op, p)
            case Some(w) => One.Apply(Lookup(m, p), One.Event(w, e.time))
            case None => Lookup(m, p)
  {
    if e.op.ReadOrder? && |e.op.endpoints| > 1 {
      TouchAllIs(m, e.op.path, e.op.endpoints, e.time, p);
    }
  }

  /** In any run, an endpoint's stats are those of its own share of the run. */
  lemma {:induction false} EndpointAlone(run: seq<Event>, p: Place)
    ensures Lookup(After(run), p) == One.After(Shares(run, p))
  {
    if run != [] {
      var before, e := run[..|run| - 1], run[|run| - 1];
      EndpointAlone(before, p);
      ApplyToOne(After(before), e, p);
      var s := Share(e.op, p);
      if s.Some? {
        var shares, last := Shares(before, p), One.Event(s.value, e.time);
        assert (shares + [last])[..|shares|] == shares;
      }
    }
  }

  lemma {:induction false} SharesTimely(run: seq<Event>, p: Place)
    requires Timely(run)
    ensures One.Timely(Shares(run, p))
    ensures Shares(run, p) != [] ==> run != [] && Shares(run, p)[|Shares(run, p)| - 1].time <= run[|run| - 1].time
  {
    if run != [] {
      SharesTimely(run[..|run| - 1], p);
    }
  }

  lemma {:induction false} SharesOfRecords(run: seq<Event>, p: Place)
    ensures Shares(Records(run), p) == One.Records(Shares(run, p))
  {
    if run != [] {
      var before, e := run[..|run| - 1], run[|run| - 1];
      SharesOfRecords(before, p);
      var shares, s := Shares(before, p), Share(e.op, p);
      if e.op.Succeed? || e.op.Fail? {
        assert (Records(before) + [e])[..|Records(before)|] == Records(before);
      }
      if s.Some? {
        var last := One.Event(s.value, e.time);
        assert (shares + [last])[..|shares|] == shares;
      }
    }
  }

  /**
   Lazy cooldown is observationally eager: whatever reads are mixed into a run of records, a later
   look at any endpoint finds what it would have found without them.
  */
  lemma {:induction false} ReadsNeverMatter(run: seq<Event>, p: Place, t: int)
    requires Timely(run) && (run != [] ==> run[|run| - 1].time <= t)
    ensures Refresh(Lookup(After(run), p), t) == Refresh(Lookup(After(Records(run)), p), t)
  {
    EndpointAlone(run, p);
    EndpointAlone(Records(run), p);
    SharesOfRecords(run, p);
    SharesTimely(run, p);
    One.ReadsAreInvisible(Shares(run, p), t);
  }

  /** If every recorded latency is at least 0 and below the bound, so is every average. */
  lemma {:induction false} RecordedBound(run: seq<Event>, bound: real, p: Place)
    requires bound > 0.0
    requires forall i :: 0 <= i < |run| && run[i].op.Succeed?
                         ==> 0.0 <= Milliseconds(run[i].op.latency) as real < bound
    ensures Below(Lookup(After(run), p), bound)
  {
    EndpointAlone(run, p);
    SharesBound(run, bound, p);
    One.LatencyBound(Shares(run, p), bound);
  }

  lemma {:induction false} SharesBound(run: seq<Event>, bound: real, p: Place)
    requires forall i :: 0 <= i < |run| && run[i].op.Succeed?
                         ==> 0.0 <= Milliseconds(run[i].op.latency) as real < bound
    ensures forall i :: 0 <= i < |Shares(run, p)| && Shares(run, p)[i].what.Succeeded?
                        ==> 0.0 <= Milliseconds(Shares(run, p)[i].what.latency) as real < bound
  {
    if run != [] {
      SharesBound(run[..|run| - 1], bound, p);
    }
  }

  /** Encrypted transports that are not down lead after any run of latencies below three seconds. */
  lemma {:induction false} EncryptedFirstAfter(run: seq<Event>, paths: seq<string>, now: int)
    requires forall i :: 0 <= i < |run| && run[i].op.Succeed?
                         ==> 0.0 <= Milliseconds(run[i].op.latency) as real < 3000.0
    ensures var out := OrderTransports(After(run), paths, now);
            forall k, l :: 0 <= k < l < |out| && out[k] == "plain" && out[l] in {"doh", "dot", "relay"}
                           ==> PathHealth(After(run), out[l], now) == Unhealthy
  {
    var m := After(run);
    forall p | p in m
      ensures Below(m[p], 3000.0)
    {
      RecordedBound(run, 3000.0, p);
      assert Lookup(m, p) == m[p];
    }
    EncryptedFirst(m, paths, now);
  }

  // ---------- runs on which the documented orders fail ----------

  lemma {:induction false} AfterOneMore(run: seq<Event>, e: Event)
    ensures After(run + [e]) == Apply(After(run), e)
  {
    assert (run + [e])[..|run|] == run;
  }

  /** Two failures of a, and a success of b that took two seconds and a millisecond. */
  function SlowButHealthy(): seq<Event> {
    [] + [Event(Fail(Place("doh", "a")), 0)] + [Event(Fail(Place("doh", "a")), 0)]
    + [Event(Succeed(Place("doh", "b"), 2001 * MILLISECOND), 0)]
  }

  /** After that run Order asks the degraded a before the healthy b. */
  lemma {:induction false} ClassDoesNotAlwaysDecide(now: int)
    ensures Timely(SlowButHealthy())
    ensures var m := After(SlowButHealthy());
            && Seen(m, "doh", "a", now).state == Degraded && Seen(m, "doh", "b", now).state == Healthy
            && !ListedByClass(m, "doh", Order(m, "doh", ["a", "b"], now), now)
  {
    var a, b := Place("doh", "a"), Place("doh", "b");
    var e1, e2, e3 := Event(Fail(a), 0), Event(Fail(a), 0), Event(Succeed(b, 2001 * MILLISECOND), 0);
    AfterOneMore([], e1);
    AfterOneMore([] + [e1], e2);
    AfterOneMore([] + [e1] + [e2], e3);
    var m := After(SlowButHealthy());
    assert Lookup(m, a).state == Degraded && Lookup(m, a).ewma == None;
    assert Lookup(m, b).state == Healthy && Lookup(m, b).ewma == Some(2001.0);
    OrderIsByClassIff(m, "doh", ["a", "b"], now);
    assert !WithinGap(Seen(m, "doh", ["a", "b"][1], now), 1, Seen(m, "doh", ["a", "b"][0], now), 0);
  }

  /** A DoH server that took three seconds and a millisecond and then failed twice. */
  function SlowThenFailing(): seq<Event> {
    [] + [Event(Succeed(Place("doh", "a"), 3001 * MILLISECOND), 0)] + [Event(Fail(Place("doh", "a")), 0)]
    + [Event(Fail(Place("doh", "a")), 0)]
  }

  /** After that run the chain's order puts plain before DoH, which is not down. */
  lemma {:induction false} EncryptedCanLose(now: int)
    ensures Timely(SlowThenFailing())
    ensures var m, chain := After(SlowThenFailing()), ["doh", "dot", "plain"];
            PathHealth(m, "doh", now) == Degraded && !EncryptedLead(m, OrderTransports(m, chain, now), now)
  {
    var a := Place("doh", "a");
    var e1, e2 := Event(Succeed(a, 3001 * MILLISECOND), 0), Event(Fail(a), 0);
    AfterOneMore([], e1);
    AfterOneMore([] + [e1], e2);
    AfterOneMore([] + [e1] + [e2], e2);
    var m, chain := After(SlowThenFailing()), ["doh", "dot", "plain"];
    assert m.Keys == {a} && m[a].state == Degraded && m[a].ewma == Some(3001.0);
    assert Tracked(m, "doh", Degraded, now);
    assert PathHealth(m, "doh", now) == Degraded && PathHealth(m, "plain", now) == Healthy;
    assert PathEwma(m, "doh") == 3001.0 && PathEwma(m, "plain") == 0.0;
    EncryptedFirstIff(m, chain, now);
    assert Rivals(m, chain, 0, 2, now) && !LagHolds(m, chain, 0, 2, now);
  }

  /** A DoH server that failed twice, and a DoT server that took two seconds and a millisecond. */
  function FailingAndSlow(): seq<Event> {
    [] + [Event(Fail(Place("doh", "a")), 0)] + [Event(Fail(Place("doh", "a")), 0)]
    + [Event(Succeed(Place("dot", "b"), 2001 * MILLISECOND), 0)]
  }

  /** After that run the chain tries the degraded DoH before the healthy DoT. */
  lemma {:induction false} HealthierCanLose(now: int)
    ensures Timely(FailingAndSlow())
    ensures var m, chain := After(FailingAndSlow()), ["doh", "dot", "plain"];
            && PathHealth(m, "doh", now) == Degraded && PathHealth(m, "dot", now) == Healthy
            && !ByClass(m, OrderTransports(m, chain, now), {"doh", "dot", "relay"}, now)
  {
    var a, b := Place("doh", "a"), Place("dot", "b");
    var e1, e2 := Event(Fail(a), 0), Event(Succeed(b, 2001 * MILLISECOND), 0);
    AfterOneMore([], e1);
    AfterOneMore([] + [e1], e1);
    AfterOneMore([] + [e1] + [e1], e2);
    DegradedBeatsHealthy(After(FailingAndSlow()), now);
  }

  lemma {:induction false} DegradedBeatsHealthy(m: Book, now: int)
    requires m.Keys == {Place("doh", "a"), Place("dot", "b")}
    requires m[Place("doh", "a")].state == Degraded && m[Place("doh", "a")].ewma == None
    requires m[Place("dot", "b")].state == Healthy && m[Place("dot", "b")].ewma == Some(2001.0)
    ensures PathHealth(m, "doh", now) == Degraded && PathHealth(m, "dot", now) == Healthy
    ensures !ByClass(m, OrderTransports(m, ["doh", "dot", "plain"], now), {"doh", "dot", "relay"}, now)
  {
    var chain := ["doh", "dot", "plain"];
    assert Place("doh", "a") in m && Place("dot", "b") in m;
    assert Tracked(m, "doh", Degraded, now) && Tracked(m, "dot", Healthy, now);
    assert PathEwma(m, "doh") == 0.0 && PathEwma(m, "dot") == 2001.0;
    EncryptedByClassIff(m, chain, now);
    var group := {"doh", "dot", "relay"};
    assert Outclasses(m, chain, group, 1, 0, now) && !ClassPays(m, chain, 5000.0, 1, 0, now);
  }

  function FiveFailures(): seq<Event> {
    var e := Event(Fail(Place("doh", "a")), 0);
    [] + [e] + [e] + [e] + [e] + [e]
  }

  lemma {:induction false} FiveFailuresDown()
    ensures var m, a := After(FiveFailures()), Place("doh", "a");
            m.Keys == {a} && m[a].state == Unhealthy && m[a].unhealthySince == Some(0)
  {
    var e := Event(Fail(Place("doh", "a")), 0);
    AfterOneMore([], e);
    AfterOneMore([] + [e], e);
    AfterOneMore([] + [e] + [e], e);
    AfterOneMore([] + [e] + [e] + [e], e);
    AfterOneMore([] + [e] + [e] + [e] + [e], e);
  }

  function TwoFailures(): seq<Event> {
    var e := Event(Fail(Place("doh", "a")), 0);
    [] + [e] + [e]
  }

  lemma {:induction false} TwoFailuresDegrade()
    ensures var m, a := After(TwoFailures()), Place("doh", "a"); m.Keys == {a} && m[a].state == Degraded
  {
    var e := Event(Fail(Place("doh", "a")), 0);
    AfterOneMore([], e);
    AfterOneMore([] + [e], e);
  }

  lemma {:induction false} NewServerHidesFailure(m: Book)
    requires m.Keys == {Place("doh", "a")}
    requires m[Place("doh", "a")].state == Unhealthy && m[Place("doh", "a")].unhealthySince == Some(0)
    ensures PathHealth(m, "doh", 1) == Unhealthy
            && PathHealth(OrderTouches(m, "doh", ["a", "b"], 1), "doh", 1) == Healthy
  {
    var b, t := Place("doh", "b"), OrderTouches(m, "doh", ["a", "b"], 1);
    assert Place("doh", "a") in m;
    TouchAllIs(m, "doh", ["a", "b"], 1, b);
    assert b in t && Refresh(t[b], 1).state == Healthy;
    assert Tracked(t, "doh", Healthy, 1);
  }

  /** The only DoH server known is down; listing it beside one never used makes the transport look healthy. */
  lemma {:induction false} ReadCanHidePathFailure()
    ensures var run, read := FiveFailures(), Event(ReadOrder("doh", ["a", "b"]), 1);
            && Timely(run + [read])
            && PathHealth(After(run), "doh", 1) == Unhealthy && PathHealth(After(run + [read]), "doh", 1) == Healthy
  {
    FiveFailuresDown();
    AfterOneMore(FiveFailures(), Event(ReadOrder("doh", ["a", "b"]), 1));
    NewServerHidesFailure(After(FiveFailures()));
  }
}
