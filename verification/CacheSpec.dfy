/**
 What each operation of the answer cache does to its list of entries, most recently used first.
 The class in Cache.dfy is proved against these functions; CacheRuns.dfy proves what they mean
 over whole runs. Times and durations are in nanoseconds.
*/
module CacheSpec {
  import opened Wrappers
  import opened Messages
  import opened Keys

  const SECOND := 1_000_000_000

  /** A wire-format answer, known only by what unpacking it yields; None is a corrupted one. */
  datatype Packed = Packed(decoded: Option<Sections>)

  datatype Line = Line(key: string, packed: Packed, expireAt: int, hits: nat, fromPrefetch: bool)

  datatype Prefetch = Prefetch(enabled: bool, threshold: int, minHits: nat)

  datatype Options = Options(
    maxEntries: int, minTTL: int, maxTTL: int, negativeTTL: int,
    staleMaxAge: int, canRefresh: bool, prefetch: Prefetch)

  datatype Runtime = Runtime(minTTL: int, maxTTL: int, negativeTTL: int, staleMaxAge: int, prefetch: Prefetch)

  /** The hit, stale-hit and miss counters, and the part of the hits credited to prefetching. */
  datatype Counters = Counters(hits: nat, staleHits: nat, misses: nat, protectedHits: nat)

  datatype State = State(opts: Options, lines: seq<Line>, counters: Counters)

  datatype MissReason = NotFound | Expired

  datatype Outcome =
    | Fresh(sections: Sections)
    | Stale(sections: Sections)
    | Miss(reason: MissReason)

  datatype RefreshReason = ForPrefetch | ForStale

  /** The outcome of a lookup, the state after it, and the background refresh it asks for. */
  datatype Lookup = Lookup(outcome: Outcome, after: State, wants: Option<RefreshReason>)

  // ---------- the list ----------

  /** No key is listed twice. */
  ghost predicate Distinct(lines: seq<Line>) {
    lines != [] ==> Find(lines[1..], lines[0].key).None? && Distinct(lines[1..])
  }

  function Find(lines: seq<Line>, k: string): Option<Line> {
    if lines == [] then None
    else if lines[0].key == k then Some(lines[0])
    else Find(lines[1..], k)
  }

  function Without(lines: seq<Line>, k: string): seq<Line> {
    if lines == [] then []
    else if lines[0].key == k then Without(lines[1..], k)
    else [lines[0]] + Without(lines[1..], k)
  }

  function WithoutName(lines: seq<Line>, name: string): seq<Line> {
    if lines == [] then []
    else if NameMatches(lines[0].key, name) then WithoutName(lines[1..], name)
    else [lines[0]] + WithoutName(lines[1..], name)
  }

  /** What the eviction loop leaves: it drops entries from the back while there are too many. */
  function Truncate(lines: seq<Line>, max: int): seq<Line> {
    if |lines| <= max then lines else if max <= 0 then [] else lines[..max]
  }

  // ---------- operations ----------

  /** The smallest time to live in the Answer section. */
  function MinTTL(answer: seq<RR>): Option<int> {
    if answer == [] then None
    else match MinTTL(answer[..|answer| - 1])
      case None => Some(answer[|answer| - 1].ttl)
      case Some(t) => Some(if answer[|answer| - 1].ttl < t then answer[|answer| - 1].ttl else t)
  }

  function ClampedTTL(o: Options, answer: seq<RR>): int {
    match MinTTL(answer)
    case None => o.negativeTTL
    case Some(t) =>
      var low := if t * SECOND < o.minTTL then o.minTTL else t * SECOND;
      if o.maxTTL > 0 && low > o.maxTTL then o.maxTTL else low
  }

  predicate StaleUsable(o: Options, age: int) {
    o.staleMaxAge > 0 && o.canRefresh && age <= o.staleMaxAge
  }

  predicate WantsPrefetch(o: Options, remaining: int, hits: nat) {
    o.prefetch.enabled && o.canRefresh && remaining <= o.prefetch.threshold && hits >= o.prefetch.minHits
  }

  function CountMiss(c: Counters): Counters {
    c.(misses := c.misses + 1)
  }

  function Get(s: State, k: string, now: int): Lookup {
    match Find(s.lines, k)
    case None => Lookup(Miss(NotFound), s.(counters := CountMiss(s.counters)), None)
    case Some(e) =>
      if now > e.expireAt && !StaleUsable(s.opts, now - e.expireAt) then
        Lookup(Miss(Expired), s.(lines := Without(s.lines, k), counters := CountMiss(s.counters)), None)
      else Serve(s, e, now)
  }

  /** Answering from a listed entry that is fresh or usable while stale; a corrupted one is dropped. */
  function Serve(s: State, e: Line, now: int): Lookup {
    match e.packed.decoded
    case None =>
      Lookup(Miss(NotFound), s.(lines := Without(s.lines, e.key), counters := CountMiss(s.counters)), None)
    case Some(sections) =>
      var touched := s.(lines := [e.(hits := e.hits + 1)] + Without(s.lines, e.key));
      if now > e.expireAt then
        Lookup(Stale(sections),
               touched.(counters := s.counters.(staleHits := s.counters.staleHits + 1)),
               Some(ForStale))
      else
        Lookup(Fresh(sections),
               touched.(counters := s.counters.(
                          hits := s.counters.hits + 1,
                          protectedHits := s.counters.protectedHits + if e.fromPrefetch then 1 else 0)),
               if WantsPrefetch(s.opts, e.expireAt - now, e.hits + 1) then Some(ForPrefetch) else None)
  }

  /** A store does nothing for a non-positive lifetime or an answer that does not pack. */
  predicate Effective(o: Options, answer: seq<RR>, packed: Option<Packed>) {
    ClampedTTL(o, answer) > 0 && packed.Some?
  }

  function Store(s: State, k: string, answer: seq<RR>, packed: Option<Packed>, fromPrefetch: bool, now: int): State {
    if !Effective(s.opts, answer, packed) then s
    else Put(s, Line(k, packed.value, now + ClampedTTL(s.opts, answer), 0, fromPrefetch))
  }

  /** A store over an existing entry keeps its hit count; a new entry may push old ones out. */
  function Put(s: State, x: Line): State {
    match Find(s.lines, x.key)
    case Some(e) => s.(lines := [x.(hits := e.hits)] + Without(s.lines, x.key))
    case None => s.(lines := Truncate([x] + s.lines, s.opts.maxEntries))
  }

  function Delete(s: State, k: string): State {
    s.(lines := Without(s.lines, k))
  }

  function Flush(s: State): State {
    s.(lines := [])
  }

  function FlushName(s: State, name: string): State {
    s.(lines := WithoutName(s.lines, name))
  }

  function UpdateOptions(o: Options, r: Runtime): Options {
    o.(minTTL := if r.minTTL > 0 then r.minTTL else o.minTTL,
       maxTTL := if r.maxTTL > 0 then r.maxTTL else o.maxTTL,
       negativeTTL := if r.negativeTTL > 0 then r.negativeTTL else o.negativeTTL,
       staleMaxAge := r.staleMaxAge,
       prefetch := r.prefetch)
  }

  function UpdateRuntime(s: State, r: Runtime): State {
    s.(opts := UpdateOptions(s.opts, r))
  }

  /** New: a non-positive bound means ten thousand entries. */
  function Empty(o: Options): State {
    State(if o.maxEntries <= 0 then o.(maxEntries := 10000) else o, [], Counters(0, 0, 0, 0))
  }

  /** A cache as New leaves it: no counts yet, and the entries of a snapshot file, if one was loaded. */
  function Restarted(o: Options, lines: seq<Line>): State {
    Empty(o).(lines := lines)
  }

  /** Where a run may start: the entries loaded, if any, have different keys. */
  ghost predicate Started(s: State) {
    s.opts.maxEntries > 0 && Distinct(s.lines) && s.counters == Counters(0, 0, 0, 0)
  }

  // ---------- the list as a map from keys ----------

  lemma {:induction false} FindKey(lines: seq<Line>, k: string)
    ensures Find(lines, k).Some? ==> Find(lines, k).value.key == k && Find(lines, k).value in lines
  {
    if lines != [] {
      FindKey(lines[1..], k);
    }
  }

  lemma {:induction false} FindListed(lines: seq<Line>, i: nat)
    requires Distinct(lines) && i < |lines|
    ensures Find(lines, lines[i].key) == Some(lines[i])
  {
    if i > 0 {
      FindListed(lines[1..], i - 1);
      assert lines[1..][i - 1] == lines[i];
    }
  }

  lemma {:induction false} DistinctPair(lines: seq<Line>, i: nat, j: nat)
    requires Distinct(lines) && i < j < |lines|
    ensures lines[i].key != lines[j].key
  {
    if i > 0 {
      DistinctPair(lines[1..], i - 1, j - 1);
    } else {
      FindListed(lines[1..], j - 1);
    }
  }

  lemma {:induction false} WithoutAbsent(lines: seq<Line>, k: string)
    requires Find(lines, k).None?
    ensures Without(lines, k) == lines
  {
    if lines != [] {
      WithoutAbsent(lines[1..], k);
    }
  }

  lemma {:induction false} FindWithout(lines: seq<Line>, k: string, q: string)
    ensures Find(Without(lines, k), q) == if q == k then None else Find(lines, q)
  {
    if lines != [] {
      FindWithout(lines[1..], k, q);
      if lines[0].key != k {
        assert Without(lines, k)[1..] == Without(lines[1..], k);
      }
    }
  }

  lemma {:induction false} FindWithoutName(lines: seq<Line>, name: string, q: string)
    ensures Find(WithoutName(lines, name), q) == if NameMatches(q, name) then None else Find(lines, q)
  {
    if lines != [] {
      FindWithoutName(lines[1..], name, q);
      if !NameMatches(lines[0].key, name) {
        assert WithoutName(lines, name)[1..] == WithoutName(lines[1..], name);
      }
    }
  }

  lemma {:induction false} FindPrefix(lines: seq<Line>, n: nat, q: string)
    requires n <= |lines|
    ensures Find(lines[..n], q).Some? ==> Find(lines[..n], q) == Find(lines, q)
  {
    if n > 0 {
      FindPrefix(lines[1..], n - 1, q);
      assert lines[..n][1..] == lines[1..][..n - 1];
    }
  }

  lemma FindFront(x: Line, rest: seq<Line>, q: string)
    ensures Find([x] + rest, q) == if x.key == q then Some(x) else Find(rest, q)
  {}

  lemma {:induction false} WithoutDistinct(lines: seq<Line>, k: string)
    requires Distinct(lines)
    ensures Distinct(Without(lines, k))
    ensures |Without(lines, k)| == |lines| - if Find(lines, k).Some? then 1 else 0
  {
    if lines != [] {
      WithoutDistinct(lines[1..], k);
      FindWithout(lines[1..], k, lines[0].key);
      if lines[0].key != k {
        assert Without(lines, k)[1..] == Without(lines[1..], k);
      }
    }
  }

  lemma {:induction false} WithoutNameDistinct(lines: seq<Line>, name: string)
    requires Distinct(lines)
    ensures Distinct(WithoutName(lines, name)) && |WithoutName(lines, name)| <= |lines|
  {
    if lines != [] {
      WithoutNameDistinct(lines[1..], name);
      FindWithoutName(lines[1..], name, lines[0].key);
      if !NameMatches(lines[0].key, name) {
        assert WithoutName(lines, name)[1..] == WithoutName(lines[1..], name);
      }
    }
  }

  lemma {:induction false} PrefixDistinct(lines: seq<Line>, n: nat)
    requires Distinct(lines) && n <= |lines|
    ensures Distinct(lines[..n])
  {
    if n > 0 {
      PrefixDistinct(lines[1..], n - 1);
      assert lines[..n][1..] == lines[1..][..n - 1];
      FindPrefix(lines[1..], n - 1, lines[0].key);
    }
  }

  lemma FrontDistinct(x: Line, rest: seq<Line>)
    requires Distinct(rest) && Find(rest, x.key).None?
    ensures Distinct([x] + rest)
  {}

  /** Dropping the last entry by its key. */
  lemma {:induction false} WithoutLast(lines: seq<Line>)
    requires Distinct(lines) && lines != []
    ensures Without(lines, lines[|lines| - 1].key) == lines[..|lines| - 1]
  {
    if |lines| > 1 {
      WithoutLast(lines[1..]);
      DistinctPair(lines, 0, |lines| - 1);
      assert lines[1..][..|lines| - 2] == lines[..|lines| - 1][1..];
    }
  }

  // ---------- lifetimes ----------

  /** The time to live used by a store is the least one among the answers. */
  lemma {:induction false} MinTTLIsMinimum(answer: seq<RR>)
    ensures MinTTL(answer).None? <==> answer == []
    ensures MinTTL(answer).Some? ==>
              && (forall i :: 0 <= i < |answer| ==> MinTTL(answer).value <= answer[i].ttl)
              && (exists i :: 0 <= i < |answer| && MinTTL(answer).value == answer[i].ttl)
  {
    if answer != [] {
      MinTTLIsMinimum(answer[..|answer| - 1]);
    }
  }

  ghost predicate IsLeastTTL(answer: seq<RR>, i: nat) {
    i < |answer| && forall j :: 0 <= j < |answer| ==> answer[i].ttl <= answer[j].ttl
  }

  /**
   The lifetime is the least time to live in the answer, in nanoseconds, raised to MinTTL and then cut to MaxTTL, which
   wins if the two contradict each other; without records it is NegativeTTL, unclamped.
  */
  lemma ClampBounds(o: Options, answer: seq<RR>) returns (i: nat)
    ensures answer == [] ==> ClampedTTL(o, answer) == o.negativeTTL
    ensures answer != [] ==>
              && IsLeastTTL(answer, i)
              && var least, ttl := answer[i].ttl * 1_000_000_000, ClampedTTL(o, answer);
                 && (o.maxTTL > 0 ==> ttl <= o.maxTTL)
                 && (o.minTTL <= least && (o.maxTTL <= 0 || least <= o.maxTTL) ==> ttl == least)
                 && (least < o.minTTL && (o.maxTTL <= 0 || o.minTTL <= o.maxTTL) ==> ttl == o.minTTL)
                 && (o.maxTTL > 0 && (o.maxTTL < least || o.maxTTL < o.minTTL) ==> ttl == o.maxTTL)
  {
    MinTTLIsMinimum(answer);
    i := 0;
    if answer != [] {
      i :| 0 <= i < |answer| && MinTTL(answer).value == answer[i].ttl;
    }
  }
}
