/**
 The tracker as a map from (path, endpoint) to stats: what each of its operations changes and
 returns, the two orders it computes, and its runs as independent runs of its endpoints.
*/
module TrackerSpec {
  import opened Wrappers
  import opened HealthSpec
  import opened Ranking

  datatype Place = Place(path: string, endpoint: string)

  type Book = map<Place, Stats>

  /** An endpoint never seen counts as a fresh, healthy one. */
  function Lookup(m: Book, p: Place): Stats {
    if p in m then m[p] else FRESH
  }

  function RecordSuccess(m: Book, p: Place, latency: int, now: int): Book {
    m[p := Success(Lookup(m, p), latency, now)]
  }

  function RecordFailure(m: Book, p: Place, now: int): Book {
    m[p := Failure(Lookup(m, p), now)]
  }

  /** Reading an endpoint creates its entry and applies a due promotion. */
  function Touch(m: Book, p: Place, now: int): Book {
    m[p := Refresh(Lookup(m, p), now)]
  }

  function TouchAll(m: Book, path: string, endpoints: seq<string>, now: int): Book {
    if endpoints == [] then m
    else Touch(TouchAll(m, path, endpoints[..|endpoints| - 1], now), Place(path, endpoints[|endpoints| - 1]), now)
  }

  /** PathState, OrderTransports and Snapshot refresh the entries there are, and create none. */
  function RefreshPaths(m: Book, paths: set<string>, now: int): Book {
    map p | p in m :: if p.path in paths then Refresh(m[p], now) else m[p]
  }

  function PathSet(paths: seq<string>): set<string> {
    set p | p in paths
  }

  function RefreshEvery(m: Book, now: int): Book {
    map p | p in m :: Refresh(m[p], now)
  }

  // ---------- order within a transport ----------

  function Scores(m: Book, path: string, endpoints: seq<string>, now: int): seq<real> {
    seq(|endpoints|, i requires 0 <= i < |endpoints| => Score(Refresh(Lookup(m, Place(path, endpoints[i])), now)))
  }

  function Order(m: Book, path: string, endpoints: seq<string>, now: int): seq<string> {
    if |endpoints| <= 1 then endpoints else Ranked(endpoints, Scores(m, path, endpoints, now))
  }

  function OrderTouches(m: Book, path: string, endpoints: seq<string>, now: int): Book {
    if |endpoints| <= 1 then m else TouchAll(m, path, endpoints, now)
  }

  lemma {:induction false} TouchAllIs(m: Book, path: string, endpoints: seq<string>, now: int, p: Place)
    ensures Lookup(TouchAll(m, path, endpoints, now), p)
            == if p.path == path && p.endpoint in endpoints then Refresh(Lookup(m, p), now) else Lookup(m, p)
    ensures p in TouchAll(m, path, endpoints, now) <==> p in m || (p.path == path && p.endpoint in endpoints)
  {
    if endpoints != [] {
      var before, last := endpoints[..|endpoints| - 1], endpoints[|endpoints| - 1];
      TouchAllIs(m, path, before, now, p);
      assert endpoints == before + [last];
      RefreshTwice(Lookup(m, p), now, now);
    }
  }

  /** The endpoint as Order sees it at now. */
  function Seen(m: Book, path: string, endpoint: string, now: int): Stats {
    Refresh(Lookup(m, Place(path, endpoint)), now)
  }

  /** Endpoint i is in a better class than j; or in the same and faster; or as fast and configured before it. */
  predicate Precedes(m: Book, path: string, endpoints: seq<string>, i: nat, j: nat, now: int)
    requires i < |endpoints| && j < |endpoints|
  {
    var a, b := Seen(m, path, endpoints[i], now), Seen(m, path, endpoints[j], now);
    && Class(a.state) >= Class(b.state)
    && (Class(a.state) == Class(b.state) ==>
          && Penalty(a.ewma) <= Penalty(b.ewma)
          && (Penalty(a.ewma) == Penalty(b.ewma) ==> i < j))
  }

  /**
   Order drops and invents nothing. When every recorded average is below a second, healthy and
   probing endpoints come before degraded before unhealthy ones, lower averages first within a class,
   and what ties on both keeps its configured order.
  */
  lemma OrderIsByClass(m: Book, path: string, endpoints: seq<string>, now: int) returns (from: seq<nat>)
    requires forall i :: 0 <= i < |endpoints| ==> Below(Lookup(m, Place(path, endpoints[i])), 1000.0)
    ensures multiset(Order(m, path, endpoints, now)) == multiset(endpoints)
    ensures |from| == |endpoints| == |Order(m, path, endpoints, now)|
    ensures forall k :: 0 <= k < |from| ==>
              from[k] < |endpoints| && Order(m, path, endpoints, now)[k] == endpoints[from[k]]
    ensures forall k, l :: 0 <= k < l < |from| ==> from[k] != from[l]
    ensures forall k, l :: 0 <= k < l < |from| ==> Precedes(m, path, endpoints, from[k], from[l], now)
  {
    if |endpoints| <= 1 {
      from := seq(|endpoints|, i => 0);
    } else {
      var scores := Scores(m, path, endpoints, now);
      from := RankedIsStable(endpoints, scores);
      forall k, l | 0 <= k < l < |from|
        ensures Precedes(m, path, endpoints, from[k], from[l], now)
      {
        var a, b := Seen(m, path, endpoints[from[k]], now), Seen(m, path, endpoints[from[l]], now);
        assert scores[from[k]] == Score(a) && scores[from[l]] == Score(b);
        ClassDecides(a, b);
        ClassDecides(b, a);
      }
    }
  }

  /** Position i may go before position j: the slower average costs less than the better class is worth. */
  predicate WithinGap(a: Stats, i: nat, b: Stats, j: nat) {
    var lead := Penalty(a.ewma) - Penalty(b.ewma);
    lead < Gap(a.state, b.state) || (lead == Gap(a.state, b.state) && i < j)
  }

  ghost predicate ListedByClass(m: Book, path: string, out: seq<string>, now: int) {
    forall k, l :: 0 <= k < l < |out|
      ==> Class(Seen(m, path, out[k], now).state) >= Class(Seen(m, path, out[l], now).state)
  }

  ghost predicate GapsHold(m: Book, path: string, endpoints: seq<string>, now: int) {
    forall i, j :: 0 <= i < |endpoints| && 0 <= j < |endpoints|
                   && Class(Seen(m, path, endpoints[i], now).state) > Class(Seen(m, path, endpoints[j], now).state)
      ==> WithinGap(Seen(m, path, endpoints[i], now), i, Seen(m, path, endpoints[j], now), j)
  }

  /** Exactly when Order lists better classes first, for any latencies. */
  lemma OrderIsByClassIff(m: Book, path: string, endpoints: seq<string>, now: int)
    ensures ListedByClass(m, path, Order(m, path, endpoints, now), now) <==> GapsHold(m, path, endpoints, now)
  {
    if |endpoints| > 1 {
      var scores := Scores(m, path, endpoints, now);
      var from := RankedIsStable(endpoints, scores);
      var out := Order(m, path, endpoints, now);
      forall i, j | 0 <= i < |endpoints| && 0 <= j < |endpoints|
                    && Class(Seen(m, path, endpoints[i], now).state) > Class(Seen(m, path, endpoints[j], now).state)
        ensures WithinGap(Seen(m, path, endpoints[i], now), i, Seen(m, path, endpoints[j], now), j)
                <==> scores[i] > scores[j] || (scores[i] == scores[j] && i < j)
      {
        ClassGap(Seen(m, path, endpoints[i], now), Seen(m, path, endpoints[j], now));
      }
      if ListedByClass(m, path, out, now) {
        forall i, j | 0 <= i < |endpoints| && 0 <= j < |endpoints|
                      && Class(Seen(m, path, endpoints[i], now).state) > Class(Seen(m, path, endpoints[j], now).state)
          ensures WithinGap(Seen(m, path, endpoints[i], now), i, Seen(m, path, endpoints[j], now), j)
        {
          var k, l := RankedPair(endpoints, scores, from, i, j);
          assert out[k] == endpoints[i] && out[l] == endpoints[j];
        }
      }
    }
  }

  // ---------- order among transports ----------

  ghost predicate Tracked(m: Book, path: string, h: Health, now: int) {
    exists p :: p in m && p.path == path && Refresh(m[p], now).state == h
  }

  /** PathState: the best state among the endpoints seen on the path; healthy if none was. */
  ghost function PathHealth(m: Book, path: string, now: int): Health {
    if !(exists p :: p in m && p.path == path) || Tracked(m, path, Healthy, now) then Healthy
    else if Tracked(m, path, Probing, now) then Probing
    else if Tracked(m, path, Degraded, now) then Degraded
    else Unhealthy
  }

  /** Which of two states is the better one. */
  function StateRank(h: Health): nat {
    match h
    case Healthy => 4
    case Probing => 3
    case Degraded => 2
    case Unhealthy => 1
  }

  /** The state of a path is the best among its endpoints as seen at now, or healthy where there is none. */
  lemma PathHealthIsBest(m: Book, path: string, now: int)
    ensures forall p :: p in m && p.path == path ==>
              StateRank(Refresh(m[p], now).state) <= StateRank(PathHealth(m, path, now))
    ensures if exists p :: p in m && p.path == path
            then exists p :: p in m && p.path == path && Refresh(m[p], now).state == PathHealth(m, path, now)
            else PathHealth(m, path, now) == Healthy
  {
    assert forall h :: Tracked(m, path, h, now) <==>
                       exists p :: p in m && p.path == path && Refresh(m[p], now).state == h;
    if p :| p in m && p.path == path {
      assert Tracked(m, path, Refresh(m[p], now).state, now);
    }
  }

  ghost predicate IsPathEwma(m: Book, path: string, r: real) {
    if exists p :: p in m && p.path == path && m[p].ewma.Some? then
      && (exists p :: p in m && p.path == path && m[p].ewma == Some(r))
      && (forall p :: p in m && p.path == path && m[p].ewma.Some? ==> r <= m[p].ewma.value)
    else r == 0.0
  }

  /** A least average exists. */
  lemma PathEwmaExists(m: Book, path: string)
    ensures exists r :: IsPathEwma(m, path, r)
  {
    var mine := set p | p in m && p.path == path && m[p].ewma.Some?;
    if mine == {} {
      assert forall p :: p in m && p.path == path && m[p].ewma.Some? ==> p in mine;
      assert IsPathEwma(m, path, 0.0);
    } else {
      var p := LeastOf(m, mine);
      assert p in m && p.path == path && m[p].ewma.Some?;
      assert forall q :: q in m && q.path == path && m[q].ewma.Some? ==> q in mine;
      assert IsPathEwma(m, path, m[p].ewma.value);
    }
  }

  lemma {:induction false} LeastOf(m: Book, ps: set<Place>) returns (p: Place)
    requires ps != {} && forall q :: q in ps ==> q in m && m[q].ewma.Some?
    ensures p in ps && forall q :: q in ps ==> m[p].ewma.value <= m[q].ewma.value
  {
    p :| p in ps;
    var rest := ps - {p};
    if rest != {} {
      var q := LeastOf(m, rest);
      if m[q].ewma.value < m[p].ewma.value {
        p := q;
      }
    }
  }

  /** PathEWMA: the least average among the endpoints seen on the path, or 0. */
  ghost function PathEwma(m: Book, path: string): (r: real)
    ensures IsPathEwma(m, path, r)
  {
    PathEwmaExists(m, path);
    var r :| IsPathEwma(m, path, r); r
  }

  ghost function TransportScores(m: Book, paths: seq<string>, now: int): seq<real> {
    seq(|paths|, i requires 0 <= i < |paths| =>
        TransportScore(paths[i], PathHealth(m, paths[i], now), PathEwma(m, paths[i])))
  }

  ghost function OrderTransports(m: Book, paths: seq<string>, now: int): seq<string> {
    if |paths| <= 1 then paths else Ranked(paths, TransportScores(m, paths, now))
  }

  lemma {:induction false} OrderTransportsPermutes(m: Book, paths: seq<string>, now: int)
    ensures multiset(OrderTransports(m, paths, now)) == multiset(paths)
    ensures |OrderTransports(m, paths, now)| == |paths|
  {
    if |paths| > 1 {
      var from := RankedIsStable(paths, TransportScores(m, paths, now));
    }
  }

  /**
   When every recorded average is below three seconds, no encrypted transport that is not down comes
   after plain. So plain leads a list with encrypted transports only if all of those are down.
  */
  lemma EncryptedFirst(m: Book, paths: seq<string>, now: int)
    requires forall p :: p in m ==> Below(m[p], 3000.0)
    ensures var out := OrderTransports(m, paths, now);
            && (forall k, l :: 0 <= k < l < |out| && out[k] == "plain" && out[l] in {"doh", "dot", "relay"}
                               ==> PathHealth(m, out[l], now) == Unhealthy)
            && (out != [] && out[0] == "plain" ==>
                  forall i :: 0 <= i < |paths| && paths[i] in {"doh", "dot", "relay"}
                              ==> PathHealth(m, paths[i], now) == Unhealthy)
  {
    if |paths| > 1 {
      var scores := TransportScores(m, paths, now);
      var from := RankedIsStable(paths, scores);
      var out := Ranked(paths, scores);
      forall k, l | 0 <= k < l < |out| && out[k] == "plain" && out[l] in {"doh", "dot", "relay"}
        ensures PathHealth(m, out[l], now) == Unhealthy
      {
        if PathHealth(m, out[l], now) != Unhealthy {
          EncryptedBeatsPlain(out[l], PathHealth(m, out[l], now), PathEwma(m, out[l]),
                              PathHealth(m, "plain", now), PathEwma(m, "plain"));
        }
      }
      if out[0] == "plain" {
        forall i | 0 <= i < |paths| && paths[i] in {"doh", "dot", "relay"}
          ensures PathHealth(m, paths[i], now) == Unhealthy
        {
          assert paths[i] in multiset(out);
          assert paths[i] in out;
          var l :| 0 <= l < |out| && out[l] == paths[i];
        }
      }
    }
  }

  lemma DownScoresLess(path: string, ewma: real, other: string, otherHealth: Health, otherEwma: real)
    requires other in {"doh", "dot", "relay"} && otherHealth != Unhealthy
    requires 0.0 <= ewma && 0.0 <= otherEwma < 3000.0
    ensures TransportScore(path, Unhealthy, ewma) < TransportScore(other, otherHealth, otherEwma)
  {}

  /** Under the same bound no path that is down comes before an encrypted transport that is not. */
  lemma DownComesLater(m: Book, paths: seq<string>, now: int, k: nat, l: nat)
    requires forall p :: p in m ==> Below(m[p], 3000.0)
    requires k < l < |OrderTransports(m, paths, now)|
    requires PathHealth(m, OrderTransports(m, paths, now)[k], now) == Unhealthy
    requires OrderTransports(m, paths, now)[l] in {"doh", "dot", "relay"}
    ensures PathHealth(m, OrderTransports(m, paths, now)[l], now) == Unhealthy
  {
    if |paths| > 1 {
      var from := RankedIsStable(paths, TransportScores(m, paths, now));
      var a, b := paths[from[k]], paths[from[l]];
      if PathHealth(m, b, now) != Unhealthy {
        DownScoresLess(a, PathEwma(m, a), b, PathHealth(m, b, now), PathEwma(m, b));
      }
    }
  }

  /** No plain entry comes before an encrypted transport that is not down. */
  ghost predicate EncryptedLead(m: Book, out: seq<string>, now: int) {
    forall k, l :: 0 <= k < l < |out| && out[k] == "plain" && out[l] in {"doh", "dot", "relay"}
      ==> PathHealth(m, out[l], now) == Unhealthy
  }

  /** An encrypted transport that is not down, at i, and plain, at j. */
  ghost predicate Rivals(m: Book, paths: seq<string>, i: nat, j: nat, now: int) {
    i < |paths| && j < |paths| && paths[i] in {"doh", "dot", "relay"} && PathHealth(m, paths[i], now) != Unhealthy
      && paths[j] == "plain"
  }

  /** The lag of the encrypted transport's average behind plain's stays within its bonus. */
  ghost predicate LagHolds(m: Book, paths: seq<string>, i: nat, j: nat, now: int)
    requires i < |paths|
  {
    var lag := PathEwma(m, paths[i]) - PathEwma(m, "plain");
    var bonus := 5000.0 + Base(PathHealth(m, paths[i], now)) - Base(PathHealth(m, "plain", now));
    lag < bonus || (lag == bonus && i < j)
  }

  lemma RivalScores(m: Book, paths: seq<string>, i: nat, j: nat, now: int)
    requires Rivals(m, paths, i, j, now)
    ensures var scores := TransportScores(m, paths, now);
            LagHolds(m, paths, i, j, now) <==> scores[i] > scores[j] || (scores[i] == scores[j] && i < j)
  {
    EncryptedGap(paths[i], PathHealth(m, paths[i], now), PathEwma(m, paths[i]), PathHealth(m, "plain", now),
                 PathEwma(m, "plain"));
  }

  /** Exactly when plain stays behind every encrypted transport that is not down, for any latencies. */
  lemma EncryptedFirstIff(m: Book, paths: seq<string>, now: int)
    ensures EncryptedLead(m, OrderTransports(m, paths, now), now)
            <==> forall i, j :: Rivals(m, paths, i, j, now) ==> LagHolds(m, paths, i, j, now)
  {
    if |paths| > 1 {
      var scores := TransportScores(m, paths, now);
      var from := RankedIsStable(paths, scores);
      if EncryptedLead(m, OrderTransports(m, paths, now), now) {
        LeadMeansLags(m, paths, from, now);
      } else {
        NoLeadMeansLag(m, paths, from, now);
      }
    }
  }

  lemma LeadMeansLags(m: Book, paths: seq<string>, from: seq<nat>, now: int)
    requires |paths| > 1 && RankedBy(paths, TransportScores(m, paths, now), OrderTransports(m, paths, now), from)
    requires from == Positions(paths, TransportScores(m, paths, now))
             && EncryptedLead(m, OrderTransports(m, paths, now), now)
    ensures forall i, j :: Rivals(m, paths, i, j, now) ==> LagHolds(m, paths, i, j, now)
  {
    forall i: nat, j: nat | Rivals(m, paths, i, j, now)
      ensures LagHolds(m, paths, i, j, now)
    {
      var k, l := RankedPair(paths, TransportScores(m, paths, now), from, i, j);
      var out := OrderTransports(m, paths, now);
      assert out[k] == paths[i] && out[l] == "plain";
      RivalScores(m, paths, i, j, now);
    }
  }

  lemma NoLeadMeansLag(m: Book, paths: seq<string>, from: seq<nat>, now: int)
    requires |paths| > 1 && RankedBy(paths, TransportScores(m, paths, now), OrderTransports(m, paths, now), from)
    requires !EncryptedLead(m, OrderTransports(m, paths, now), now)
    ensures exists i, j :: Rivals(m, paths, i, j, now) && !LagHolds(m, paths, i, j, now)
  {
    var out := OrderTransports(m, paths, now);
    var k, l :| 0 <= k < l < |out| && out[k] == "plain" && out[l] in {"doh", "dot", "relay"}
                && PathHealth(m, out[l], now) != Unhealthy;
    assert Rivals(m, paths, from[l], from[k], now);
    RivalScores(m, paths, from[l], from[k], now);
  }

  // ---------- order among the encrypted transports, and among all others ----------

  /** Of the paths in the group, those in better classes come first. */
  ghost predicate ByClass(m: Book, out: seq<string>, group: set<string>, now: int) {
    forall k, l :: 0 <= k < l < |out| && out[k] in group && out[l] in group
      ==> Class(PathHealth(m, out[k], now)) >= Class(PathHealth(m, out[l], now))
  }

  /** Of the paths in the group and in one class, those with lower averages come first. */
  ghost predicate ByAverage(m: Book, out: seq<string>, group: set<string>, now: int) {
    forall k, l :: 0 <= k < l < |out| && Alike(m, out[k], out[l], group, now)
      ==> PathEwma(m, out[k]) <= PathEwma(m, out[l])
  }

  ghost predicate Alike(m: Book, path: string, other: string, group: set<string>, now: int) {
    path in group && other in group && Class(PathHealth(m, path, now)) == Class(PathHealth(m, other, now))
  }

  /** Paths of the group at i and j, the first in a better class. */
  ghost predicate Outclasses(m: Book, paths: seq<string>, group: set<string>, i: nat, j: nat, now: int) {
    && i < |paths| && j < |paths| && paths[i] in group && paths[j] in group
    && Class(PathHealth(m, paths[i], now)) > Class(PathHealth(m, paths[j], now))
  }

  /** How many milliseconds a better class is worth where a path that is not down has a bonus. */
  function Worth(better: Health, worse: Health, bonus: real): real {
    Gap(better, worse) + if worse == Unhealthy then bonus else 0.0
  }

  /** The better path's average lags behind the other's by no more than its class is worth. */
  ghost predicate ClassPays(m: Book, paths: seq<string>, bonus: real, i: nat, j: nat, now: int)
    requires i < |paths| && j < |paths|
  {
    var lag := PathEwma(m, paths[i]) - PathEwma(m, paths[j]);
    var gap := Worth(PathHealth(m, paths[i], now), PathHealth(m, paths[j], now), bonus);
    lag < gap || (lag == gap && i < j)
  }

  /** A group whose scores differ by class and average alone, with that bonus for not being down. */
  ghost predicate Comparable(m: Book, paths: seq<string>, group: set<string>, bonus: real, now: int) {
    forall i: nat, j: nat :: Outclasses(m, paths, group, i, j, now) ==>
      (ClassPays(m, paths, bonus, i, j, now) <==> ScoresAhead(m, paths, i, j, now))
  }

  ghost predicate ScoresAhead(m: Book, paths: seq<string>, i: nat, j: nat, now: int)
    requires i < |paths| && j < |paths|
  {
    var scores := TransportScores(m, paths, now);
    scores[i] > scores[j] || (scores[i] == scores[j] && i < j)
  }

  lemma ByClassIff(m: Book, paths: seq<string>, group: set<string>, bonus: real, now: int)
    requires Comparable(m, paths, group, bonus, now)
    ensures ByClass(m, OrderTransports(m, paths, now), group, now) <==>
            forall i: nat, j: nat :: Outclasses(m, paths, group, i, j, now) ==> ClassPays(m, paths, bonus, i, j, now)
  {
    if |paths| > 1 {
      var from := RankedIsStable(paths, TransportScores(m, paths, now));
      if ByClass(m, OrderTransports(m, paths, now), group, now) {
        ByClassMeansPays(m, paths, from, group, bonus, now);
      } else {
        NotByClassMeansNot(m, paths, from, group, bonus, now);
      }
    }
  }

  lemma ByClassMeansPays(m: Book, paths: seq<string>, from: seq<nat>, group: set<string>,
                         bonus: real, now: int)
    requires |paths| > 1 && RankedBy(paths, TransportScores(m, paths, now), OrderTransports(m, paths, now), from)
    requires from == Positions(paths, TransportScores(m, paths, now))
    requires Comparable(m, paths, group, bonus, now) && ByClass(m, OrderTransports(m, paths, now), group, now)
    ensures forall i: nat, j: nat :: Outclasses(m, paths, group, i, j, now) ==> ClassPays(m, paths, bonus, i, j, now)
  {
    forall i: nat, j: nat | Outclasses(m, paths, group, i, j, now)
      ensures ClassPays(m, paths, bonus, i, j, now)
    {
      PaysWhereAhead(m, paths, from, group, i, j, now);
    }
  }

  /** Where better classes come first, a path in a better class scores ahead. */
  lemma PaysWhereAhead(m: Book, paths: seq<string>, from: seq<nat>, group: set<string>, i: nat, j: nat, now: int)
    requires |paths| > 1 && RankedBy(paths, TransportScores(m, paths, now), OrderTransports(m, paths, now), from)
    requires from == Positions(paths, TransportScores(m, paths, now))
    requires ByClass(m, OrderTransports(m, paths, now), group, now) && Outclasses(m, paths, group, i, j, now)
    ensures ScoresAhead(m, paths, i, j, now)
  {
    var k, l := RankedPair(paths, TransportScores(m, paths, now), from, i, j);
    var out := OrderTransports(m, paths, now);
    assert out[k] == paths[i] && out[l] == paths[j];
  }

  lemma NotByClassMeansNot(m: Book, paths: seq<string>, from: seq<nat>, group: set<string>,
                           bonus: real, now: int)
    requires |paths| > 1 && RankedBy(paths, TransportScores(m, paths, now), OrderTransports(m, paths, now), from)
    requires Comparable(m, paths, group, bonus, now) && !ByClass(m, OrderTransports(m, paths, now), group, now)
    ensures exists i: nat, j: nat :: Outclasses(m, paths, group, i, j, now) && !ClassPays(m, paths, bonus, i, j, now)
  {
    var out := OrderTransports(m, paths, now);
    var k, l :| 0 <= k < l < |out| && out[k] in group && out[l] in group
                && Class(PathHealth(m, out[k], now)) < Class(PathHealth(m, out[l], now));
    assert Outclasses(m, paths, group, from[l], from[k], now);
  }

  lemma AveragesDecide(m: Book, paths: seq<string>, group: set<string>, now: int)
    requires forall i, j :: 0 <= i < |paths| && 0 <= j < |paths| && Alike(m, paths[i], paths[j], group, now)
               ==> AverageDecides(m, paths, i, j, now)
    ensures ByAverage(m, OrderTransports(m, paths, now), group, now)
  {
    if |paths| > 1 {
      var from := RankedIsStable(paths, TransportScores(m, paths, now));
      var out := OrderTransports(m, paths, now);
      forall k, l | 0 <= k < l < |out| && Alike(m, out[k], out[l], group, now)
        ensures PathEwma(m, out[k]) <= PathEwma(m, out[l])
      {
        AheadIsFaster(m, paths, from[k], from[l], now);
      }
    }
  }

  lemma AheadIsFaster(m: Book, paths: seq<string>, i: nat, j: nat, now: int)
    requires i < |paths| && j < |paths| && AverageDecides(m, paths, i, j, now)
    requires TransportScores(m, paths, now)[i] >= TransportScores(m, paths, now)[j]
    ensures PathEwma(m, paths[i]) <= PathEwma(m, paths[j])
  {}

  ghost predicate AverageDecides(m: Book, paths: seq<string>, i: nat, j: nat, now: int)
    requires i < |paths| && j < |paths|
  {
    var scores := TransportScores(m, paths, now);
    scores[i] >= scores[j] <==> PathEwma(m, paths[i]) <= PathEwma(m, paths[j])
  }

  /** Exactly when healthier ones of doh, dot and relay come first, for any latencies. */
  lemma EncryptedByClassIff(m: Book, paths: seq<string>, now: int)
    ensures var group := {"doh", "dot", "relay"};
            ByClass(m, OrderTransports(m, paths, now), group, now) <==>
            forall i: nat, j: nat :: Outclasses(m, paths, group, i, j, now) ==> ClassPays(m, paths, 5000.0, i, j, now)
  {
    var group := {"doh", "dot", "relay"};
    forall i: nat, j: nat | Outclasses(m, paths, group, i, j, now)
      ensures ClassPays(m, paths, 5000.0, i, j, now) <==> ScoresAhead(m, paths, i, j, now)
    {
      EncryptedPair(paths[i], PathHealth(m, paths[i], now), PathEwma(m, paths[i]),
                    paths[j], PathHealth(m, paths[j], now), PathEwma(m, paths[j]));
    }
    ByClassIff(m, paths, group, 5000.0, now);
  }

  /** Those of doh, dot and relay in one class always come in the order of their averages. */
  lemma EncryptedByAverage(m: Book, paths: seq<string>, now: int)
    ensures ByAverage(m, OrderTransports(m, paths, now), {"doh", "dot", "relay"}, now)
  {
    var group := {"doh", "dot", "relay"};
    forall i, j | 0 <= i < |paths| && 0 <= j < |paths| && Alike(m, paths[i], paths[j], group, now)
      ensures AverageDecides(m, paths, i, j, now)
    {
      SameClass(paths[i], PathHealth(m, paths[i], now), PathEwma(m, paths[i]),
                paths[j], PathHealth(m, paths[j], now), PathEwma(m, paths[j]));
    }
    AveragesDecide(m, paths, group, now);
  }

  /** Any other paths, plain among them, go by class and average alone; exactly when better classes come first. */
  lemma OthersByClassIff(m: Book, paths: seq<string>, others: set<string>, now: int)
    requires "doh" !in others && "dot" !in others && "relay" !in others
    ensures ByClass(m, OrderTransports(m, paths, now), others, now) <==>
            forall i: nat, j: nat :: Outclasses(m, paths, others, i, j, now) ==> ClassPays(m, paths, 0.0, i, j, now)
  {
    forall i: nat, j: nat | Outclasses(m, paths, others, i, j, now)
      ensures ClassPays(m, paths, 0.0, i, j, now) <==> ScoresAhead(m, paths, i, j, now)
    {
      OrdinaryPair(paths[i], PathHealth(m, paths[i], now), PathEwma(m, paths[i]),
                   paths[j], PathHealth(m, paths[j], now), PathEwma(m, paths[j]));
    }
    ByClassIff(m, paths, others, 0.0, now);
  }

  lemma OthersByAverage(m: Book, paths: seq<string>, others: set<string>, now: int)
    requires "doh" !in others && "dot" !in others && "relay" !in others
    ensures ByAverage(m, OrderTransports(m, paths, now), others, now)
  {
    forall i, j | 0 <= i < |paths| && 0 <= j < |paths| && Alike(m, paths[i], paths[j], others, now)
      ensures AverageDecides(m, paths, i, j, now)
    {
      SameClass(paths[i], PathHealth(m, paths[i], now), PathEwma(m, paths[i]),
                paths[j], PathHealth(m, paths[j], now), PathEwma(m, paths[j]));
    }
    AveragesDecide(m, paths, others, now);
  }

  // ---------- reads and the path state ----------

  /**
   A read of an endpoint may change the state of its path, since it creates the endpoint as a
   healthy one. It does not exactly when the endpoint was known or the path already healthy.
  */
  lemma ReadKeepsPathHealthIff(m: Book, p: Place, now: int)
    ensures PathHealth(Touch(m, p, now), p.path, now) == PathHealth(m, p.path, now)
            <==> p in m || PathHealth(m, p.path, now) == Healthy
  {}
}
