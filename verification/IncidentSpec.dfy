/**
 Which incidents a tracker snapshot shows, and their histories over successive evaluations:
 SinceIsRunStart says how long an incident has been active, Exclusions which never coexist.
*/
module IncidentSpec {
  import opened Wrappers
  import opened HealthSpec
  import opened TrackerSpec
  import Runs = TrackerRuns

  datatype Kind =
    | DnsErrorSpike
    | LatencyDegradation
    | ProviderDegradation
    | TransportDegradation
    | UpstreamUnavailable

  function KindName(k: Kind): string {
    match k
    case DnsErrorSpike => "dns_error_spike"
    case LatencyDegradation => "latency_degradation"
    case ProviderDegradation => "provider_degradation"
    case TransportDegradation => "transport_degradation"
    case UpstreamUnavailable => "upstream_unavailable"
  }

  datatype Severity = Info | Warn | Critical

  function SeverityOf(k: Kind): Severity {
    match k
    case UpstreamUnavailable => Critical
    case LatencyDegradation => Info
    case _ => Warn
  }

  datatype Key = Key(kind: Kind, path: string, endpoint: string)

  datatype Incident = Incident(kind: Kind, path: string, endpoint: string, since: int, severity: Severity)

  function Report(k: Key, since: int): Incident {
    Incident(k.kind, k.path, k.endpoint, since, SeverityOf(k.kind))
  }

  /** The detector's thresholds: a multiple of the best peer's average, and a failure ratio. */
  datatype Limits = Limits(latencyX: real, failRate: real)

  function LatencyOf(s: Stats): real {
    if s.ewma.Some? then s.ewma.value else 0.0
  }

  predicate Up(h: Health) {
    h == Healthy || h == Probing
  }

  // ---------- what is an incident ----------

  ghost predicate HasEndpoints(m: Book, path: string) {
    exists p :: p in m && p.path == path
  }

  ghost predicate AllDown(m: Book, path: string) {
    forall p :: p in m && p.path == path ==> m[p].state == Unhealthy
  }

  ghost predicate NoneUp(m: Book, path: string) {
    forall p :: p in m && p.path == path ==> !Up(m[p].state)
  }

  predicate Spikes(l: Limits, s: Stats) {
    s.requests >= 10 && s.failures as real / s.requests as real >= l.failRate
  }

  predicate AboveFloor(s: Stats) {
    LatencyOf(s) >= 200.0
  }

  /** The endpoint's average is the multiple of that of some peer on its path which has one at all. */
  ghost predicate ManyTimesPeer(l: Limits, m: Book, p: Place)
    requires p in m
  {
    exists q :: q in m && q.path == p.path && LatencyOf(m[q]) > 0.0
      && IsMultiple(l.latencyX, LatencyOf(m[p]), LatencyOf(m[q]))
  }

  predicate IsMultiple(x: real, mine: real, other: real) {
    mine >= x * other
  }

  /** Slow against some peer on the same path, and slow in itself. */
  ghost predicate Slow(l: Limits, m: Book, p: Place)
    requires p in m
  {
    AboveFloor(m[p]) && ManyTimesPeer(l, m, p)
  }

  ghost predicate IsActive(l: Limits, m: Book, k: Key) {
    match k.kind
    case UpstreamUnavailable => k.endpoint == "" && HasEndpoints(m, k.path) && AllDown(m, k.path)
    case TransportDegradation => k.endpoint == "" && HasEndpoints(m, k.path) && NoneUp(m, k.path) && !AllDown(m, k.path)
    case ProviderDegradation =>
      Place(k.path, k.endpoint) in m && !Up(m[Place(k.path, k.endpoint)].state) && !NoneUp(m, k.path)
    case DnsErrorSpike => Place(k.path, k.endpoint) in m && Spikes(l, m[Place(k.path, k.endpoint)])
    case LatencyDegradation => Place(k.path, k.endpoint) in m && Slow(l, m, Place(k.path, k.endpoint))
  }

  /**
   On one path, unavailability and transport degradation exclude each other, and both exclude a
   degraded provider; a path that is seen shows one of the first two exactly when nothing on it is up.
  */
  lemma Exclusions(l: Limits, m: Book, path: string, endpoint: string)
    ensures !(IsActive(l, m, Key(UpstreamUnavailable, path, "")) && IsActive(l, m, Key(TransportDegradation, path, "")))
    ensures IsActive(l, m, Key(ProviderDegradation, path, endpoint)) ==>
              !IsActive(l, m, Key(UpstreamUnavailable, path, ""))
                && !IsActive(l, m, Key(TransportDegradation, path, ""))
    ensures HasEndpoints(m, path) ==>
              (NoneUp(m, path) <==> IsActive(l, m, Key(UpstreamUnavailable, path, ""))
                                    || IsActive(l, m, Key(TransportDegradation, path, "")))
  {}

  // ---------- latency, as documented and as detected ----------

  /** The documented condition: the multiple of the best peer, or the floor. */
  ghost predicate SlowAsDocumented(l: Limits, m: Book, p: Place)
    requires p in m
  {
    AboveFloor(m[p]) || ManyTimesPeer(l, m, p)
  }

  /** The least average among those on the path that are positive. */
  ghost predicate IsBest(m: Book, path: string, best: real) {
    && (exists q :: q in m && q.path == path && LatencyOf(m[q]) > 0.0 && LatencyOf(m[q]) == best)
    && (forall q :: q in m && q.path == path && LatencyOf(m[q]) > 0.0 ==> best <= LatencyOf(m[q]))
  }

  lemma AgainstBest(x: real, mine: real, best: real, other: real)
    requires x >= 0.0 && best <= other && IsMultiple(x, mine, other)
    ensures IsMultiple(x, mine, best)
  {
    assert x * (other - best) >= 0.0;
  }

  lemma ManyTimesBest(l: Limits, m: Book, p: Place, best: real)
    requires p in m && l.latencyX >= 0.0 && IsBest(m, p.path, best)
    ensures ManyTimesPeer(l, m, p) <==> IsMultiple(l.latencyX, LatencyOf(m[p]), best)
  {
    if ManyTimesPeer(l, m, p) {
      var q :| q in m && q.path == p.path && LatencyOf(m[q]) > 0.0
               && IsMultiple(l.latencyX, LatencyOf(m[p]), LatencyOf(m[q]));
      AgainstBest(l.latencyX, LatencyOf(m[p]), best, LatencyOf(m[q]));
    }
  }

  /**
   The detector agrees with the documented condition exactly when the endpoint's average is above the
   floor of 200 ms and a multiple of the best average on its path, or neither.
  */
  lemma LatencyAsDocumentedIff(l: Limits, m: Book, p: Place, best: real)
    requires p in m && l.latencyX >= 0.0 && IsBest(m, p.path, best)
    ensures (IsActive(l, m, Key(LatencyDegradation, p.path, p.endpoint)) <==> SlowAsDocumented(l, m, p))
            <==> (LatencyOf(m[p]) >= 200.0 <==> LatencyOf(m[p]) >= l.latencyX * best)
  {
    ManyTimesBest(l, m, p, best);
  }

  /** The same after one success each of two servers, in terms of the two recorded times. */
  lemma TwoServersAgreeIff(slow: nat, fast: nat, now: int)
    requires slow >= fast > 0
    ensures var p, q := Place("doh", "a"), Place("doh", "b");
            var run := [] + [Runs.Event(Runs.Succeed(p, slow * MILLISECOND), 0)]
                       + [Runs.Event(Runs.Succeed(q, fast * MILLISECOND), 0)];
            var m, l := RefreshEvery(Runs.After(run), now), Limits(5.0, 0.3);
            && p in m
            && (IsActive(l, m, Key(LatencyDegradation, "doh", "a")) <==> slow >= 200 && slow >= 5 * fast)
            && (SlowAsDocumented(l, m, p) <==> slow >= 200 || slow >= 5 * fast)
  {
    var p, q := Place("doh", "a"), Place("doh", "b");
    var e1 := Runs.Event(Runs.Succeed(p, slow * MILLISECOND), 0);
    var e2 := Runs.Event(Runs.Succeed(q, fast * MILLISECOND), 0);
    Runs.AfterOneMore([], e1);
    Runs.AfterOneMore([] + [e1], e2);
    var m, l := RefreshEvery(Runs.After([] + [e1] + [e2]), now), Limits(5.0, 0.3);
    assert m.Keys == {p, q} && LatencyOf(m[p]) == slow as real && LatencyOf(m[q]) == fast as real;
    assert IsBest(m, "doh", fast as real) by {
      assert q in m;
    }
    ManyTimesBest(l, m, p, fast as real);
  }

  /** Servers at 300 and 290 milliseconds: the first is above the floor, but no incident. */
  lemma FloorAloneIsNoIncident(now: int)
    ensures var p, q := Place("doh", "a"), Place("doh", "b");
            var run := [] + [Runs.Event(Runs.Succeed(p, 300 * MILLISECOND), 0)]
                       + [Runs.Event(Runs.Succeed(q, 290 * MILLISECOND), 0)];
            var m, l := RefreshEvery(Runs.After(run), now), Limits(5.0, 0.3);
            && p in m && SlowAsDocumented(l, m, p) && !IsActive(l, m, Key(LatencyDegradation, "doh", "a"))
  {
    TwoServersAgreeIff(300, 290, now);
  }

  // ---------- histories ----------

  datatype Evaluation = Evaluation(snapshot: Book, now: int)

  /** The active incidents with their starting times. */
  type Active = map<Key, int>

  ghost predicate IsNext(l: Limits, active: Active, e: Evaluation, next: Active) {
    forall k :: (k in next <==> IsActive(l, e.snapshot, k))
                && (k in next ==> next[k] == if k in active then active[k] else e.now)
  }

  /** states[i] is the active set after i evaluations. */
  ghost predicate IsHistory(l: Limits, evals: seq<Evaluation>, states: seq<Active>) {
    && |states| == |evals| + 1 && states[0] == map[]
    && forall i :: 0 <= i < |evals| ==> IsNext(l, states[i], evals[i], states[i + 1])
  }

  /** k has been active in every evaluation from j up to the n-th, and was not just before. */
  ghost predicate UnbrokenSince(l: Limits, evals: seq<Evaluation>, n: nat, k: Key, j: nat)
    requires n <= |evals|
  {
    && j < n
    && (forall i :: j <= i < n ==> IsActive(l, evals[i].snapshot, k))
    && (j > 0 ==> !IsActive(l, evals[j - 1].snapshot, k))
  }

  lemma {:induction false} RunStart(l: Limits, evals: seq<Evaluation>, n: nat, k: Key) returns (j: nat)
    requires 0 < n <= |evals| && IsActive(l, evals[n - 1].snapshot, k)
    ensures UnbrokenSince(l, evals, n, k, j)
  {
    if n > 1 && IsActive(l, evals[n - 2].snapshot, k) {
      j := RunStart(l, evals, n - 1, k);
    } else {
      j := n - 1;
    }
  }

  /**
   After n evaluations an incident is listed exactly if the last one found it, and its Since is the
   time of the first evaluation in the current unbroken run of evaluations that found it.
  */
  lemma {:induction false} SinceIsRunStart(l: Limits, evals: seq<Evaluation>, states: seq<Active>, n: nat, k: Key,
                                           j: nat)
    requires IsHistory(l, evals, states) && n <= |evals|
    ensures k in states[n] <==> n > 0 && IsActive(l, evals[n - 1].snapshot, k)
    ensures UnbrokenSince(l, evals, n, k, j) ==> k in states[n] && states[n][k] == evals[j].now
  {
    if n > 0 {
      assert IsNext(l, states[n - 1], evals[n - 1], states[n]);
      SinceIsRunStart(l, evals, states, n - 1, k, j);
    }
  }

  // ---------- the order of the listing ----------

  /** Lexicographic order of strings. */
  predicate Less(s: string, t: string) {
    t != [] && (s == [] || s[0] < t[0] || (s[0] == t[0] && Less(s[1..], t[1..])))
  }

  lemma {:induction false} LessTotal(s: string, t: string)
    ensures s == t || Less(s, t) || Less(t, s)
    ensures !(Less(s, t) && Less(t, s)) && !Less(s, s)
  {
    if s != [] {
      LessTotal(s[1..], if t == [] then [] else t[1..]);
      if t != [] && s[0] == t[0] && s[1..] == t[1..] {
        assert s == [s[0]] + s[1..] && t == [t[0]] + t[1..];
      }
      LessTotal(s[1..], s[1..]);
    }
  }

  lemma {:induction false} LessTransitive(s: string, t: string, u: string)
    requires Less(s, t) && Less(t, u)
    ensures Less(s, u)
  {
    if s != [] && s[0] == t[0] == u[0] {
      LessTransitive(s[1..], t[1..], u[1..]);
    }
  }

  /** By kind, then path, then endpoint. */
  predicate KeyLess(a: Key, b: Key) {
    if a.kind != b.kind then Less(KindName(a.kind), KindName(b.kind))
    else if a.path != b.path then Less(a.path, b.path)
    else Less(a.endpoint, b.endpoint)
  }

  lemma KindNamesDiffer(a: Kind, b: Kind)
    ensures KindName(a) == KindName(b) ==> a == b
  {
    assert KindName(DnsErrorSpike)[0] == 'd' && KindName(LatencyDegradation)[0] == 'l'
        && KindName(ProviderDegradation)[0] == 'p' && KindName(TransportDegradation)[0] == 't'
        && KindName(UpstreamUnavailable)[0] == 'u';
  }

  lemma KeyLessTotal(a: Key, b: Key)
    ensures a == b || KeyLess(a, b) || KeyLess(b, a)
    ensures !(KeyLess(a, b) && KeyLess(b, a))
  {
    KindNamesDiffer(a.kind, b.kind);
    LessTotal(KindName(a.kind), KindName(b.kind));
    LessTotal(a.path, b.path);
    LessTotal(a.endpoint, b.endpoint);
  }

  lemma KeyLessTransitive(a: Key, b: Key, c: Key)
    requires KeyLess(a, b) && KeyLess(b, c)
    ensures KeyLess(a, c)
  {
    KindNamesDiffer(a.kind, b.kind);
    KindNamesDiffer(b.kind, c.kind);
    KeyLessTotal(a, b);
    KeyLessTotal(b, c);
    if a.kind != b.kind && b.kind != c.kind {
      LessTransitive(KindName(a.kind), KindName(b.kind), KindName(c.kind));
      LessTotal(KindName(a.kind), KindName(b.kind));
    } else if a.kind == b.kind == c.kind {
      if a.path != b.path && b.path != c.path {
        LessTransitive(a.path, b.path, c.path);
        LessTotal(a.path, b.path);
      } else if a.path == b.path == c.path {
        LessTransitive(a.endpoint, b.endpoint, c.endpoint);
      }
    }
  }

  ghost predicate Ascending(ks: seq<Key>) {
    forall i, j :: 0 <= i < j < |ks| ==> KeyLess(ks[i], ks[j])
  }

  function InsertKey(k: Key, ks: seq<Key>): seq<Key> {
    if ks == [] || KeyLess(k, ks[0]) then [k] + ks else [ks[0]] + InsertKey(k, ks[1..])
  }

  lemma {:induction false} InsertAscends(k: Key, ks: seq<Key>)
    requires Ascending(ks) && k !in ks
    ensures Ascending(InsertKey(k, ks))
    ensures forall x :: x in InsertKey(k, ks) ==> x == k || x in ks
    ensures forall x :: x == k || x in ks ==> x in InsertKey(k, ks)
  {
    if ks == [] {
    } else if KeyLess(k, ks[0]) {
      forall j | 0 <= j < |ks|
        ensures KeyLess(k, ks[j])
      {
        if j > 0 {
          KeyLessTransitive(k, ks[0], ks[j]);
        }
      }
    } else {
      KeyLessTotal(k, ks[0]);
      InsertAscends(k, ks[1..]);
      var rest := InsertKey(k, ks[1..]);
      forall j | 0 <= j < |rest|
        ensures KeyLess(ks[0], rest[j])
      {
        assert rest[j] in rest;
      }
      assert forall x :: x in ks <==> x == ks[0] || x in ks[1..];
    }
  }

  /** out reports the active incidents, each once, in the order of ks. */
  ghost predicate Lists(active: Active, ks: seq<Key>, out: seq<Incident>) {
    && Ascending(ks) && |ks| == |out|
    && (forall k :: k in ks ==> k in active)
    && (forall k :: k in active ==> k in ks)
    && (forall i :: 0 <= i < |ks| ==> ks[i] in active && out[i] == Report(ks[i], active[ks[i]]))
  }

  ghost predicate IsListing(active: Active, out: seq<Incident>) {
    exists ks :: Lists(active, ks, out)
  }

  lemma AscendingTail(ks: seq<Key>, k: Key)
    requires Ascending(ks) && ks != []
    ensures k in ks[1..] <==> k in ks && k != ks[0]
  {
    if k in ks[1..] {
      var i :| 1 <= i < |ks| && ks[i] == k;
      KeyLessTotal(ks[0], ks[i]);
      KeyLessTotal(k, k);
    }
  }

  lemma {:induction false} AscendingUnique(ks: seq<Key>, js: seq<Key>)
    requires Ascending(ks) && Ascending(js)
    requires forall k :: k in ks <==> k in js
    ensures ks == js
  {
    assert ks != [] ==> ks[0] in ks && js != [];
    assert js != [] ==> js[0] in js && ks != [];
    if ks != [] {
      KeyLessTotal(ks[0], js[0]);
      forall k
        ensures k in ks[1..] <==> k in js[1..]
      {
        AscendingTail(ks, k);
        AscendingTail(js, k);
      }
      AscendingUnique(ks[1..], js[1..]);
    }
  }

  /** The listing is determined by the active set. */
  lemma ListingUnique(active: Active, out: seq<Incident>, other: seq<Incident>)
    requires IsListing(active, out) && IsListing(active, other)
    ensures out == other
  {
    var ks :| Lists(active, ks, out);
    var js :| Lists(active, js, other);
    AscendingUnique(ks, js);
  }

  // ---------- what an evaluation reports, in terms of states and counters alone ----------

  ghost predicate Reported(out: seq<Incident>, kind: Kind, severity: Severity, path: string, endpoint: string) {
    exists i :: 0 <= i < |out| && out[i].kind == kind && out[i].severity == severity
                && out[i].path == path && out[i].endpoint == endpoint
  }

  lemma EachIsActive(active: Active, ks: seq<Key>, out: seq<Incident>, i: nat)
    requires Lists(active, ks, out) && i < |out|
    ensures var k := Key(out[i].kind, out[i].path, out[i].endpoint);
            k in active && out[i].since == active[k] && out[i].severity == SeverityOf(k.kind)
  {
    assert ks[i] in ks && out[i] == Report(ks[i], active[ks[i]]);
  }

  lemma ActiveIsReported(active: Active, ks: seq<Key>, out: seq<Incident>, k: Key)
    requires Lists(active, ks, out) && k in active
    ensures Reported(out, k.kind, SeverityOf(k.kind), k.path, k.endpoint)
  {
    var i :| 0 <= i < |ks| && ks[i] == k;
    assert out[i] == Report(k, active[k]);
  }

  lemma ReportedIff(active: Active, out: seq<Incident>, kind: Kind, severity: Severity, path: string, endpoint: string)
    requires IsListing(active, out)
    ensures Reported(out, kind, severity, path, endpoint) <==>
            Key(kind, path, endpoint) in active && severity == SeverityOf(kind)
  {
    var ks :| Lists(active, ks, out);
    if Reported(out, kind, severity, path, endpoint) {
      var i :| 0 <= i < |out| && out[i].kind == kind && out[i].severity == severity
               && out[i].path == path && out[i].endpoint == endpoint;
      EachIsActive(active, ks, out, i);
    }
    if Key(kind, path, endpoint) in active {
      ActiveIsReported(active, ks, out, Key(kind, path, endpoint));
    }
  }

  lemma RatioIs(failures: nat, requests: nat)
    requires requests > 0
    ensures failures as real / requests as real >= 0.3 <==> 10 * failures >= 3 * requests
  {
    QuotientAtLeast(failures as real, requests as real, 0.3);
  }

  lemma QuotientAtLeast(x: real, y: real, z: real)
    requires y > 0.0
    ensures x / y >= z <==> x >= z * y
  {
    var q := x / y;
    assert q * y == x;
    if q >= z {
      assert (q - z) * y >= 0.0;
    } else {
      assert (z - q) * y > 0.0;
    }
  }

  /** On the path something was seen, and all of it is unhealthy. */
  ghost predicate PathIsDown(m: Book, path: string) {
    (exists p :: p in m && p.path == path) && forall p :: p in m && p.path == path ==> m[p].state == Unhealthy
  }

  /** On the path nothing is healthy or probing, and something is degraded. */
  ghost predicate PathIsDegraded(m: Book, path: string) {
    && (exists p :: p in m && p.path == path && m[p].state == Degraded)
    && forall p :: p in m && p.path == path ==> m[p].state == Degraded || m[p].state == Unhealthy
  }

  lemma UnavailableIs(l: Limits, m: Book, path: string, endpoint: string)
    ensures IsActive(l, m, Key(UpstreamUnavailable, path, endpoint)) <==> endpoint == "" && PathIsDown(m, path)
  {}

  lemma DegradedIs(l: Limits, m: Book, path: string, endpoint: string)
    ensures IsActive(l, m, Key(TransportDegradation, path, endpoint)) <==> endpoint == "" && PathIsDegraded(m, path)
  {}

  /** After an evaluation exactly the keys active in its snapshot are reported, at the severity of their kind. */
  lemma ReportedIfActive(before: Active, e: Evaluation, active: Active, out: seq<Incident>,
                         kind: Kind, severity: Severity, path: string, endpoint: string)
    requires IsNext(Limits(5.0, 0.3), before, e, active) && IsListing(active, out)
    ensures Reported(out, kind, severity, path, endpoint) <==>
            severity == SeverityOf(kind) && IsActive(Limits(5.0, 0.3), e.snapshot, Key(kind, path, endpoint))
  {
    ReportedIff(active, out, kind, severity, path, endpoint);
  }

  /** What an evaluation reports of a path: critically that it is down, as a warning that it is degraded. */
  lemma PathReports(before: Active, e: Evaluation, active: Active, out: seq<Incident>,
                    severity: Severity, path: string, endpoint: string)
    requires IsNext(Limits(5.0, 0.3), before, e, active) && IsListing(active, out)
    ensures Reported(out, UpstreamUnavailable, severity, path, endpoint) <==>
            severity == Critical && endpoint == "" && PathIsDown(e.snapshot, path)
    ensures Reported(out, TransportDegradation, severity, path, endpoint) <==>
            severity == Warn && endpoint == "" && PathIsDegraded(e.snapshot, path)
  {
    ReportedIfActive(before, e, active, out, UpstreamUnavailable, severity, path, endpoint);
    ReportedIfActive(before, e, active, out, TransportDegradation, severity, path, endpoint);
    UnavailableIs(Limits(5.0, 0.3), e.snapshot, path, endpoint);
    DegradedIs(Limits(5.0, 0.3), e.snapshot, path, endpoint);
  }

  /** A peer of p on its path is up. */
  ghost predicate PeerIsUp(m: Book, p: Place) {
    exists q :: q in m && q.path == p.path && (m[q].state == Healthy || m[q].state == Probing)
  }

  /** The average of p is at least 200 ms and five times that of a peer on its path. */
  ghost predicate SlowBesidePeer(m: Book, p: Place)
    requires p in m
  {
    && m[p].ewma.Some? && m[p].ewma.value >= 200.0
    && exists q :: q in m && q.path == p.path && m[q].ewma.Some? && m[q].ewma.value > 0.0
                   && m[p].ewma.value >= 5.0 * m[q].ewma.value
  }

  /**
   What it reports of an endpoint: as warnings, that it is down or degraded beside a peer that is up, and
   that three tenths of at least ten requests failed; as information, that it is slow beside a peer.
  */
  lemma EndpointReports(before: Active, e: Evaluation, active: Active, out: seq<Incident>, severity: Severity, p: Place)
    requires IsNext(Limits(5.0, 0.3), before, e, active) && IsListing(active, out)
    ensures var m := e.snapshot;
            && (Reported(out, ProviderDegradation, severity, p.path, p.endpoint) <==>
                severity == Warn && p in m && (m[p].state == Degraded || m[p].state == Unhealthy) && PeerIsUp(m, p))
            && (Reported(out, DnsErrorSpike, severity, p.path, p.endpoint) <==>
                severity == Warn && p in m && m[p].requests >= 10 && 10 * m[p].failures >= 3 * m[p].requests)
            && (Reported(out, LatencyDegradation, severity, p.path, p.endpoint) <==>
                severity == Info && p in m && SlowBesidePeer(m, p))
  {
    ReportedIfActive(before, e, active, out, ProviderDegradation, severity, p.path, p.endpoint);
    ReportedIfActive(before, e, active, out, DnsErrorSpike, severity, p.path, p.endpoint);
    ReportedIfActive(before, e, active, out, LatencyDegradation, severity, p.path, p.endpoint);
    if p in e.snapshot && e.snapshot[p].requests > 0 {
      RatioIs(e.snapshot[p].failures, e.snapshot[p].requests);
    }
  }

  /** The listing goes by kind in this order, within a kind by path, and within a path by endpoint. */
  function Rank(k: Kind): nat {
    match k
    case DnsErrorSpike => 0
    case LatencyDegradation => 1
    case ProviderDegradation => 2
    case TransportDegradation => 3
    case UpstreamUnavailable => 4
  }

  lemma ListedInOrder(active: Active, out: seq<Incident>, i: nat, j: nat)
    requires IsListing(active, out) && i < j < |out|
    ensures Rank(out[i].kind) <= Rank(out[j].kind)
    ensures out[i].kind == out[j].kind ==> out[i].path == out[j].path || Less(out[i].path, out[j].path)
    ensures out[i].kind == out[j].kind && out[i].path == out[j].path ==> Less(out[i].endpoint, out[j].endpoint)
  {
    var ks :| Lists(active, ks, out);
    assert KeyLess(ks[i], ks[j]);
  }

  /** After five failures of the only DoH server, DoH is reported as unavailable until the cooldown is over. */
  lemma FiveFailuresAreCritical(before: Active, now: int, active: Active, out: seq<Incident>)
    requires now < 30_000_000_000
    requires var m := RefreshEvery(Runs.After(Runs.FiveFailures()), now);
             IsNext(Limits(5.0, 0.3), before, Evaluation(m, now), active)
    requires IsListing(active, out)
    ensures Reported(out, UpstreamUnavailable, Critical, "doh", "")
  {
    var m := RefreshEvery(Runs.After(Runs.FiveFailures()), now);
    Runs.FiveFailuresDown();
    assert Place("doh", "a") in m;
    assert PathIsDown(m, "doh");
    PathReports(before, Evaluation(m, now), active, out, Critical, "doh", "");
  }

  /** After two failures it is reported as degraded. */
  lemma TwoFailuresAreAWarning(before: Active, now: int, active: Active, out: seq<Incident>)
    requires var m := RefreshEvery(Runs.After(Runs.TwoFailures()), now);
             IsNext(Limits(5.0, 0.3), before, Evaluation(m, now), active)
    requires IsListing(active, out)
    ensures Reported(out, TransportDegradation, Warn, "doh", "")
  {
    var m := RefreshEvery(Runs.After(Runs.TwoFailures()), now);
    Runs.TwoFailuresDegrade();
    assert Place("doh", "a") in m;
    assert PathIsDegraded(m, "doh");
    PathReports(before, Evaluation(m, now), active, out, Warn, "doh", "");
  }
}
