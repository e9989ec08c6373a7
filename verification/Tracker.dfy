/** The tracker itself: shared endpoint records behind a map, refreshed and updated in place. */
module Tracking {
  import opened Wrappers
  import opened HealthSpec
  import opened Ranking
  import opened TrackerSpec
  import Spec = HealthSpec
  import Effect = TrackerSpec

  class EndpointStats {
    const place: Place
    var state: Health
    var ewma: Option<real>
    var requests: nat
    var successes: nat
    var failures: nat
    var consecutiveFailures: nat
    var consecutiveSuccesses: nat
    var lastSuccess: Option<int>
    var lastFailure: Option<int>
    var unhealthySince: Option<int>

    constructor (place: Place)
      ensures this.place == place && View() == FRESH
    {
      this.place := place;
      state, ewma := Healthy, None;
      requests, successes, failures := 0, 0, 0;
      consecutiveFailures, consecutiveSuccesses := 0, 0;
      lastSuccess, lastFailure, unhealthySince := None, None, None;
    }

    ghost function View(): Stats
      reads this
    {
      Stats(state, ewma, requests, successes, failures, consecutiveFailures, consecutiveSuccesses,
            lastSuccess, lastFailure, unhealthySince)
    }

    method RefreshState(now: int)
      modifies this
      ensures View() == Spec.Refresh(old(View()), now)
    {
      if state == Unhealthy && unhealthySince.Some? && now - unhealthySince.value >= COOLDOWN {
        state := Probing;
      }
    }

    method OnSuccess()
      modifies this
      ensures View() == Spec.OnSuccess(old(View()))
    {
      match state
      case Probing =>
        state := Healthy;
        consecutiveSuccesses := 0;
      case Degraded | Unhealthy =>
        if consecutiveSuccesses >= RECOVER_THRESHOLD {
          state := Healthy;
          consecutiveSuccesses := 0;
        }
      case Healthy =>
    }

    method OnFailure(now: int)
      modifies this
      ensures View() == Spec.OnFailure(old(View()), now)
    {
      match state
      case Healthy =>
        if consecutiveFailures >= DEGRADE_THRESHOLD {
          state := Degraded;
        }
      case Degraded =>
        if consecutiveFailures >= UNHEALTHY_THRESHOLD {
          state := Unhealthy;
          unhealthySince := Some(now);
        }
      case Probing =>
        state := Unhealthy;
        unhealthySince := Some(now);
      case Unhealthy =>
        unhealthySince := Some(now);
    }

    method RecordSuccess(latency: int, now: int)
      modifies this
      ensures View() == Spec.Success(old(View()), latency, now)
    {
      RefreshState(now);
      requests := requests + 1;
      successes := successes + 1;
      consecutiveFailures := 0;
      consecutiveSuccesses := consecutiveSuccesses + 1;
      lastSuccess := Some(now);
      var ms := Milliseconds(latency) as real;
      if ewma.None? {
        ewma := Some(ms);
      } else {
        ewma := Some(0.2 * ms + 0.8 * ewma.value);
      }
      OnSuccess();
    }

    method RecordFailure(now: int)
      modifies this
      ensures View() == Spec.Failure(old(View()), now)
    {
      RefreshState(now);
      requests := requests + 1;
      failures := failures + 1;
      consecutiveSuccesses := 0;
      consecutiveFailures := consecutiveFailures + 1;
      lastFailure := Some(now);
      OnFailure(now);
    }
  }

  class Tracker {
    var stats: map<Place, EndpointStats>

    constructor ()
      ensures Valid() && View() == map[] && stats == map[]
    {
      stats := map[];
    }

    /** Every record is filed under its own place. */
    ghost predicate Valid()
      reads this
    {
      forall p :: p in stats ==> stats[p].place == p
    }

    ghost function View(): Book
      reads this, stats.Values
    {
      map p | p in stats :: stats[p].View()
    }

    /** The records before stay; new ones are new objects. */
    twostate predicate Grown()
      reads this
    {
      && old(stats).Keys <= stats.Keys
      && (forall p :: p in old(stats) ==> stats[p] == old(stats)[p])
      && (forall p :: p in stats && p !in old(stats) ==> fresh(stats[p]))
    }

    method Get(p: Place) returns (s: EndpointStats)
      requires Valid()
      modifies this
      ensures Valid() && Grown() && p in stats && s == stats[p]
      ensures View() == if p in old(View()) then old(View()) else old(View())[p := FRESH]
    {
      if p !in stats {
        s := new EndpointStats(p);
        stats := stats[p := s];
      }
      s := stats[p];
    }

    method RecordSuccess(p: Place, latency: int, now: int)
      requires Valid()
      modifies this, stats.Values
      ensures Valid() && Grown() && View() == Effect.RecordSuccess(old(View()), p, latency, now)
    {
      var s := Get(p);
      s.RecordSuccess(latency, now);
    }

    method RecordFailure(p: Place, now: int)
      requires Valid()
      modifies this, stats.Values
      ensures Valid() && Grown() && View() == Effect.RecordFailure(old(View()), p, now)
    {
      var s := Get(p);
      s.RecordFailure(now);
    }

    method State(p: Place, now: int) returns (h: Health)
      requires Valid()
      modifies this, stats.Values
      ensures Valid() && Grown() && View() == Effect.Touch(old(View()), p, now)
      ensures h == Spec.Refresh(Lookup(old(View()), p), now).state
    {
      var s := Get(p);
      s.RefreshState(now);
      assert View()[p] == s.View();
      h := s.state;
    }

    /** One endpoint's turn in Order. */
    method ScoreOf(p: Place, now: int) returns (score: real)
      requires Valid()
      modifies this, stats.Values
      ensures Valid() && Grown() && View() == Effect.Touch(old(View()), p, now)
      ensures score == Score(Spec.Refresh(Lookup(old(View()), p), now))
    {
      var s := Get(p);
      s.RefreshState(now);
      assert View()[p] == s.View();
      score := Base(s.state) - Penalty(s.ewma);
    }

    method Order(path: string, endpoints: seq<string>, now: int) returns (out: seq<string>)
      requires Valid()
      modifies this, stats.Values
      ensures Valid() && Grown() && View() == Effect.OrderTouches(old(View()), path, endpoints, now)
      ensures out == Effect.Order(old(View()), path, endpoints, now)
    {
      if |endpoints| <= 1 {
        return endpoints;
      }
      ghost var was := View();
      ghost var all := Items(endpoints, Scores(was, path, endpoints, now));
      var items: seq<Scored> := [];
      for i := 0 to |endpoints|
        invariant Valid() && Grown()
        invariant View() == TouchAll(was, path, endpoints[..i], now)
        invariant items == all[..i]
      {
        var score := ScoreOf(Place(path, endpoints[i]), now);
        OneMoreScored(was, path, endpoints, i, now);
        items := items + [Scored(endpoints[i], score, i)];
      }
      assert endpoints[..|endpoints|] == endpoints && all[..|endpoints|] == all;
      out := Names(Sort(items));
    }

    method RefreshOne(p: Place, now: int) returns (h: Health)
      requires Valid() && p in stats
      modifies stats[p]
      ensures Valid() && View() == old(View())[p := Spec.Refresh(old(View())[p], now)]
      ensures h == View()[p].state
    {
      assert View()[p] == stats[p].View();
      stats[p].RefreshState(now);
      assert View()[p] == stats[p].View();
      h := stats[p].state;
    }

    method PathState(path: string, now: int) returns (best: Health)
      requires Valid()
      modifies stats.Values
      ensures stats == old(stats) && Valid()
      ensures View() == RefreshPaths(old(View()), {path}, now)
      ensures best == PathHealth(old(View()), path, now)
    {
      ghost var was := View();
      var todo := set p | p in stats && p.path == path;
      NothingRefreshed(was, path, todo, now);
      if todo == {} {
        return Healthy;
      }
      best := Unhealthy;
      while todo != {}
        invariant stats == old(stats) && Valid()
        invariant forall p :: p in todo ==> p in was && p.path == path
        invariant View() == PartlyRefreshed(was, path, todo, now)
        invariant BestSoFar(was, path, todo, best, now)
        decreases todo
      {
        var p :| p in todo;
        var st := RefreshOne(p, now);
        OneMoreRefreshed(was, path, todo, best, now, p);
        if StateRank(st) > StateRank(best) {
          best := st;
        }
        todo := todo - {p};
      }
      BestIsPathHealth(was, path, best, now);
    }

    method PathEWMA(path: string) returns (best: real)
      requires Valid()
      ensures best == PathEwma(View(), path)
    {
      ghost var was := View();
      best := 0.0;
      var found := false;
      var todo := set p | p in stats && p.path == path;
      ghost var mine := todo;
      while todo != {}
        invariant todo <= mine
        invariant found ==> exists p :: p in mine && was[p].ewma == Some(best)
        invariant !found ==> best == 0.0
        invariant forall p :: p in mine && p !in todo && was[p].ewma.Some? ==> found && best <= was[p].ewma.value
        decreases todo
      {
        var p :| p in todo;
        var s := stats[p];
        assert was[p] == s.View();
        if s.ewma.Some? {
          if !found || s.ewma.value < best {
            best := s.ewma.value;
            found := true;
          }
        }
        todo := todo - {p};
      }
      PathEwmaUnique(was, path, best);
    }

    /** One transport's turn in OrderTransports. */
    method TransportScoreOf(path: string, now: int) returns (score: real)
      requires Valid()
      modifies stats.Values
      ensures stats == old(stats) && Valid() && View() == RefreshPaths(old(View()), {path}, now)
      ensures score == TransportScore(path, PathHealth(old(View()), path, now), PathEwma(old(View()), path))
    {
      RefreshKeepsPath(View(), {path}, path, now);
      var st := PathState(path, now);
      var ewma := PathEWMA(path);
      score := TransportScore(path, st, ewma);
    }

    method OrderTransports(paths: seq<string>, now: int) returns (out: seq<string>)
      requires Valid()
      modifies stats.Values
      ensures stats == old(stats) && Valid()
      ensures View() == if |paths| <= 1 then old(View()) else RefreshPaths(old(View()), PathSet(paths), now)
      ensures out == Effect.OrderTransports(old(View()), paths, now)
    {
      if |paths| <= 1 {
        return paths;
      }
      ghost var was := View();
      var items: seq<Scored> := [];
      assert View() == RefreshPaths(was, PathSet(paths[..0]), now);
      for i := 0 to |paths|
        invariant stats == old(stats) && Valid()
        invariant HasScored(was, paths, i, now, View(), items)
      {
        OneMoreTransport(was, paths, i, now, View(), items);
        var score := TransportScoreOf(paths[i], now);
        items := items + [Scored(paths[i], score, i)];
      }
      AllScored(was, paths, now, View(), items);
      out := Names(Sort(items));
    }

    method CaptureOne(p: Place, now: int) returns (st: Stats)
      requires Valid() && p in stats
      modifies stats[p]
      ensures Valid() && View() == old(View())[p := Spec.Refresh(old(View())[p], now)]
      ensures st == Spec.Refresh(old(View())[p], now)
    {
      var _ := RefreshOne(p, now);
      var s := stats[p];
      assert View()[p] == s.View();
      st := Stats(s.state, s.ewma, s.requests, s.successes, s.failures, s.consecutiveFailures,
                  s.consecutiveSuccesses, s.lastSuccess, s.lastFailure, s.unhealthySince);
    }

    /** Snapshot: every entry there is, refreshed. The order of the listing is not modelled. */
    method Snapshot(now: int) returns (snaps: Book)
      requires Valid()
      modifies stats.Values
      ensures stats == old(stats) && Valid() && View() == RefreshEvery(old(View()), now) && snaps == View()
    {
      ghost var was := View();
      snaps := map[];
      var todo := stats.Keys;
      while todo != {}
        invariant stats == old(stats) && Valid() && todo <= stats.Keys
        invariant View() == RefreshedBut(was, todo, now)
        invariant snaps == RefreshedBut(was, todo, now) - todo
        decreases todo
      {
        var p :| p in todo;
        OneMoreCaptured(was, todo, now, p);
        var st := CaptureOne(p, now);
        snaps := snaps[p := st];
        todo := todo - {p};
      }
    }
  }

  // ---------- paths ----------

  lemma OneMoreScored(was: Book, path: string, endpoints: seq<string>, i: nat, now: int)
    requires i < |endpoints|
    ensures var p, m := Place(path, endpoints[i]), TouchAll(was, path, endpoints[..i], now);
            var all := Items(endpoints, Scores(was, path, endpoints, now));
            && Touch(m, p, now) == TouchAll(was, path, endpoints[..i + 1], now)
            && all[..i + 1] == all[..i] + [Scored(endpoints[i], Score(Spec.Refresh(Lookup(m, p), now)), i)]
  {
    var p := Place(path, endpoints[i]);
    TouchAllIs(was, path, endpoints[..i], now, p);
    RefreshTwice(Lookup(was, p), now, now);
    assert endpoints[..i + 1][..i] == endpoints[..i];
  }

  /** The view while the entries of one path are being refreshed; those in todo come later. */
  ghost function PartlyRefreshed(was: Book, path: string, todo: set<Place>, now: int): Book {
    map p | p in was :: if p.path == path && p !in todo then Spec.Refresh(was[p], now) else was[p]
  }

  ghost predicate BestSoFar(was: Book, path: string, todo: set<Place>, best: Health, now: int) {
    && (forall p :: p in was && p.path == path && p !in todo
                    ==> StateRank(Spec.Refresh(was[p], now).state) <= StateRank(best))
    && (best == Unhealthy || Tracked(was, path, best, now))
  }

  /** The view while every entry is being refreshed; those in todo come later. */
  ghost function RefreshedBut(was: Book, todo: set<Place>, now: int): Book {
    map p | p in was :: if p in todo then was[p] else Spec.Refresh(was[p], now)
  }

  lemma OneMoreCaptured(was: Book, todo: set<Place>, now: int, p: Place)
    requires p in todo && p in was
    ensures var m := RefreshedBut(was, todo, now);
            && m[p := Spec.Refresh(m[p], now)] == RefreshedBut(was, todo - {p}, now)
            && (m - todo)[p := Spec.Refresh(m[p], now)] == RefreshedBut(was, todo - {p}, now) - (todo - {p})
  {}

  lemma NothingRefreshed(was: Book, path: string, todo: set<Place>, now: int)
    requires todo == set p | p in was && p.path == path
    ensures PartlyRefreshed(was, path, todo, now) == was
    ensures BestSoFar(was, path, todo, Unhealthy, now)
    ensures todo == {} ==> RefreshPaths(was, {path}, now) == was && PathHealth(was, path, now) == Healthy
    ensures todo != {} ==> exists p :: p in was && p.path == path
    ensures RefreshPaths(was, {path}, now) == PartlyRefreshed(was, path, {}, now)
  {}

  lemma OneMoreRefreshed(was: Book, path: string, todo: set<Place>, best: Health, now: int, p: Place)
    requires p in todo && p in was && p.path == path && BestSoFar(was, path, todo, best, now)
    ensures var m := PartlyRefreshed(was, path, todo, now);
            m[p := Spec.Refresh(m[p], now)] == PartlyRefreshed(was, path, todo - {p}, now)
    ensures var st := Spec.Refresh(PartlyRefreshed(was, path, todo, now)[p], now).state;
            BestSoFar(was, path, todo - {p}, if StateRank(st) > StateRank(best) then st else best, now)
  {}

  /** The first i transports have been scored, and the entries on their paths refreshed. */
  ghost predicate HasScored(was: Book, paths: seq<string>, i: nat, now: int, m: Book, items: seq<Scored>)
    requires i <= |paths|
  {
    && m == RefreshPaths(was, PathSet(paths[..i]), now)
    && items == Items(paths, TransportScores(was, paths, now))[..i]
  }

  lemma OneMoreTransport(was: Book, paths: seq<string>, i: nat, now: int, m: Book, items: seq<Scored>)
    requires i < |paths| && HasScored(was, paths, i, now, m, items)
    ensures var score := TransportScore(paths[i], PathHealth(m, paths[i], now), PathEwma(m, paths[i]));
            HasScored(was, paths, i + 1, now, RefreshPaths(m, {paths[i]}, now), items + [Scored(paths[i], score, i)])
  {
    RefreshKeepsPath(was, PathSet(paths[..i]), paths[i], now);
    RefreshMore(was, PathSet(paths[..i]), paths[i], now);
    assert PathSet(paths[..i + 1]) == PathSet(paths[..i]) + {paths[i]};
  }

  lemma AllScored(was: Book, paths: seq<string>, now: int, m: Book, items: seq<Scored>)
    requires HasScored(was, paths, |paths|, now, m, items)
    ensures m == RefreshPaths(was, PathSet(paths), now) && items == Items(paths, TransportScores(was, paths, now))
  {
    assert paths[..|paths|] == paths;
  }

  lemma RefreshMore(was: Book, done: set<string>, path: string, now: int)
    ensures RefreshPaths(RefreshPaths(was, done, now), {path}, now) == RefreshPaths(was, done + {path}, now)
  {}

  lemma BestIsPathHealth(m: Book, path: string, best: Health, now: int)
    requires exists p :: p in m && p.path == path
    requires forall p :: p in m && p.path == path ==> StateRank(Spec.Refresh(m[p], now).state) <= StateRank(best)
    requires best == Unhealthy || Tracked(m, path, best, now)
    ensures best == PathHealth(m, path, now)
  {}

  lemma PathEwmaUnique(m: Book, path: string, r: real)
    requires IsPathEwma(m, path, r)
    ensures r == PathEwma(m, path)
  {}

  /** Refreshing at now changes neither the health at now nor the average of a path. */
  lemma RefreshKeepsPath(m: Book, paths: set<string>, path: string, now: int)
    ensures PathHealth(RefreshPaths(m, paths, now), path, now) == PathHealth(m, path, now)
    ensures PathEwma(RefreshPaths(m, paths, now), path) == PathEwma(m, path)
  {}
}
