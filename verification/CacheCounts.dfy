/**
 Counts over the runs of CacheRuns: what an entry's hit count means (HitsAreCounted, HitsSplit), when a
 lookup asks for a background refresh (RefreshAsked), and that every lookup is counted once (Accounting).
*/
module CacheCounts {
  import opened Wrappers
  import opened Messages
  import opened CacheSpec
  import opened CacheRuns
  import Spec = CacheSpec

  // ---------- popularity and background refreshes ----------

  function HitsOf(s: State, k: string): nat {
    if Find(s.lines, k).Some? then Find(s.lines, k).value.hits else 0
  }

  /** How often k has been hit since it was last absent, on top of the hits it was loaded with. */
  ghost function HitsSince(start: State, run: seq<Event>, n: nat, k: string): nat
    requires n <= |run|
  {
    if n == 0 then HitsOf(start, k)
    else if Find(At(start, run, n - 1).lines, k).None? then 0
    else HitsSince(start, run, n - 1, k) + if HitAt(start, run, n - 1, k) then 1 else 0
  }

  /** Step i is a lookup of k that does not miss. */
  ghost predicate HitAt(start: State, run: seq<Event>, i: nat, k: string)
    requires i < |run|
  {
    run[i].op == Op.Get(k) && !OutcomeAt(start, run, i).Miss?
  }

  lemma {:induction false} StepHits(s: State, e: Event, k: string)
    requires s.opts.maxEntries > 0 && Find(Apply(s, e).lines, k).Some?
    ensures Find(Apply(s, e).lines, k).value.hits ==
            if Find(s.lines, k).None? then 0
            else Find(s.lines, k).value.hits
                 + if e.op == Op.Get(k) && !Spec.Get(s, k, e.now).outcome.Miss? then 1 else 0
  {
    match e.op
    case Get(q) => FindAfterGet(s, q, e.now, k);
    case Store(q, answer, packed, fromPrefetch) =>
      if Effective(s.opts, answer, packed) {
        FindAfterPut(s, Line(q, packed.value, e.now + ClampedTTL(s.opts, answer), 0, fromPrefetch), k);
      }
    case Delete(q) => FindWithout(s.lines, q, k);
    case Flush =>
    case FlushName(name) => FindWithoutName(s.lines, name, k);
    case UpdateRuntime(r) =>
  }

  /** An entry's hit count survives refills: it counts the hits since the key was last absent. */
  lemma {:induction false} HitsAreCounted(start: State, run: seq<Event>, n: nat, k: string)
    requires n <= |run| && Started(start) && Find(At(start, run, n).lines, k).Some?
    ensures Find(At(start, run, n).lines, k).value.hits == HitsSince(start, run, n, k)
  {
    if n > 0 {
      HitsStep(start, run, n, k);
      if Find(At(start, run, n - 1).lines, k).Some? {
        HitsAreCounted(start, run, n - 1, k);
      }
    }
  }

  lemma {:induction false} HitsStep(start: State, run: seq<Event>, n: nat, k: string)
    requires 0 < n <= |run| && Started(start) && Find(At(start, run, n).lines, k).Some?
    ensures var was := Find(At(start, run, n - 1).lines, k);
            Find(At(start, run, n).lines, k).value.hits ==
            if was.None? then 0 else was.value.hits + if HitAt(start, run, n - 1, k) then 1 else 0
  {
    AlwaysGood(start, run, n - 1);
    StepHits(At(start, run, n - 1), run[n - 1], k);
  }

  /** The documented popularity: how often k has been hit since its entry was last stored or loaded. */
  ghost function HitsSinceStore(start: State, run: seq<Event>, n: nat, k: string): nat
    requires n <= |run|
  {
    if n == 0 || Stores(start, run, n - 1, k) then 0
    else HitsSinceStore(start, run, n - 1, k) + if HitAt(start, run, n - 1, k) then 1 else 0
  }

  /** The hits that the entry of k already had when it was last stored or loaded; 0 if that store inserted it. */
  ghost function Carried(start: State, run: seq<Event>, n: nat, k: string): nat
    requires n <= |run|
  {
    if n == 0 then HitsOf(start, k)
    else if Stores(start, run, n - 1, k) then HitsOf(At(start, run, n - 1), k)
    else Carried(start, run, n - 1, k)
  }

  lemma {:induction false} ListedBefore(start: State, run: seq<Event>, n: nat, k: string)
    requires 0 < n <= |run| && Started(start) && Find(At(start, run, n).lines, k).Some? && !Stores(start, run, n - 1, k)
    ensures Find(At(start, run, n - 1).lines, k).Some?
  {
    AlwaysGood(start, run, n - 1);
    FindAfter(At(start, run, n - 1), run[n - 1], k);
  }

  /** What an entry counts is the documented number and what it carried over its last store. */
  lemma {:induction false} HitsSplit(start: State, run: seq<Event>, n: nat, k: string)
    requires n <= |run| && Started(start) && Find(At(start, run, n).lines, k).Some?
    ensures Find(At(start, run, n).lines, k).value.hits == HitsSinceStore(start, run, n, k) + Carried(start, run, n, k)
  {
    if n > 0 {
      HitsStep(start, run, n, k);
      if !Stores(start, run, n - 1, k) {
        ListedBefore(start, run, n, k);
        HitsSplit(start, run, n - 1, k);
      }
    }
  }

  /** Exactly when an entry's hit count is the documented one: when its last store carried nothing over. */
  lemma {:induction false} CountsAsDocumentedIff(start: State, run: seq<Event>, n: nat, k: string)
    requires n <= |run| && Started(start) && Find(At(start, run, n).lines, k).Some?
    ensures Find(At(start, run, n).lines, k).value.hits == HitsSinceStore(start, run, n, k)
            <==> Carried(start, run, n, k) == 0
  {
    HitsSplit(start, run, n, k);
  }

  /** Prefetching is on and possible, the answer is about to expire, and it has been hit often enough. */
  predicate PrefetchDue(o: Options, remaining: int, hits: nat) {
    && o.prefetch.enabled && o.canRefresh
    && remaining <= o.prefetch.threshold && hits >= o.prefetch.minHits
  }

  /**
   What one lookup of an entry with so many hits asks for: a refresh always when it is stale; when it is
   fresh, if the answer is about to expire and, counting this lookup, popular enough; none when it misses.
  */
  ghost predicate AsksRightly(s: State, k: string, now: int, hits: nat) {
    var g, x := Spec.Get(s, k, now), Find(s.lines, k);
    && (g.wants == Some(ForStale) <==> g.outcome.Stale?)
    && (g.wants.Some? ==> s.opts.canRefresh)
    && (g.outcome.Miss? ==> g.wants.None?)
    && (g.outcome.Fresh? ==>
          x.Some? && (g.wants == Some(ForPrefetch) <==> PrefetchDue(s.opts, x.value.expireAt - now, hits + 1)))
  }

  /**
   When a lookup asks for a background refresh, in terms of the last effective store of its key and of
   the hits since the key was last absent.
  */
  lemma {:induction false} RefreshAsked(start: State, run: seq<Event>, i: nat)
    requires i < |run| && Started(start) && run[i].op.Get?
    ensures var k, s := run[i].op.key, At(start, run, i);
            var x, from := Find(s.lines, k), LastStore(start, run, i, k);
            && (x.Some? ==> AsksRightly(s, k, run[i].now, HitsSince(start, run, i, k)))
            && (x.None? ==> Spec.Get(s, k, run[i].now).wants.None?)
            && (!OutcomeAt(start, run, i).Miss? ==>
                  && x.Some? && IsLastStore(start, run, i, k, from)
                  && FillingOf(x.value) == FillingBy(start, run, i, k, from))
  {
    var k, s := run[i].op.key, At(start, run, i);
    if Find(s.lines, k).Some? {
      HitsAreCounted(start, run, i, k);
      ListedIsLastStore(start, run, i, k);
    }
  }

  /**
   Exactly when prefetching is as documented: a fresh lookup asks for a prefetch whenever the hits since
   the last store would, and also without that exactly if the hits carried over that store reach MinHits
   on an entry that is about to expire.
  */
  lemma {:induction false} PrefetchesAsDocumentedIff(start: State, run: seq<Event>, i: nat)
    requires i < |run| && Started(start) && run[i].op.Get? && OutcomeAt(start, run, i).Fresh?
    ensures var k, opts := run[i].op.key, At(start, run, i).opts;
            var hits, carried := HitsSinceStore(start, run, i, k) + 1, Carried(start, run, i, k);
            && Find(At(start, run, i).lines, k).Some?
            && var remaining := Find(At(start, run, i).lines, k).value.expireAt - run[i].now;
               var asks := Spec.Get(At(start, run, i), k, run[i].now).wants == Some(ForPrefetch);
               && (PrefetchDue(opts, remaining, hits) ==> asks)
               && ((asks <==> PrefetchDue(opts, remaining, hits)) <==>
                   !(hits < opts.prefetch.minHits <= hits + carried)
                     || !PrefetchDue(opts, remaining, opts.prefetch.minHits))
  {
    var k := run[i].op.key;
    HitsSplit(start, run, i, k);
    PrefetchAt(At(start, run, i), k, run[i].now, HitsSinceStore(start, run, i, k), Carried(start, run, i, k));
  }

  /** The same of one lookup of an entry with so many hits, so many of them carried over. */
  lemma {:induction false} PrefetchAt(s: State, k: string, now: int, since: nat, carried: nat)
    requires Find(s.lines, k).Some? && Find(s.lines, k).value.hits == since + carried
    requires Spec.Get(s, k, now).outcome.Fresh?
    ensures var asks := Spec.Get(s, k, now).wants == Some(ForPrefetch);
            var hits, remaining := since + 1, Find(s.lines, k).value.expireAt - now;
            && (PrefetchDue(s.opts, remaining, hits) ==> asks)
            && ((asks <==> PrefetchDue(s.opts, remaining, hits)) <==>
                !(hits < s.opts.prefetch.minHits <= hits + carried)
                  || !PrefetchDue(s.opts, remaining, s.opts.prefetch.minHits))
  {}

  // A run that prefetches although the documented count would not: a store, a hit, a refill, a hit.

  const PREFETCH_AT_TWO := Options(1, 0, 0, 0, 0, true, Prefetch(true, 60 * SECOND, 2))

  const ONE_MINUTE := [Other("", 60)]

  function StoreAt(now: int): Event {
    Event(Store("a.|A", ONE_MINUTE, Some(Packed(Some(Sections(ONE_MINUTE, [], [])))), false), now)
  }

  function RefillRun(): seq<Event> {
    [StoreAt(0), Event(Get("a.|A"), 1), StoreAt(2), Event(Get("a.|A"), 3)]
  }

  function EntryWith(expireAt: int, hits: nat): seq<Line> {
    [Line("a.|A", Packed(Some(Sections(ONE_MINUTE, [], []))), expireAt, hits, false)]
  }

  lemma {:induction false} StoreStep(s: State, now: int)
    requires s.opts == PREFETCH_AT_TWO && (s.lines == [] || exists e, h :: s.lines == EntryWith(e, h))
    ensures StoresKey(s.opts, StoreAt(now).op, "a.|A") && Apply(s, StoreAt(now)).opts == s.opts
    ensures Apply(s, StoreAt(now)).lines == EntryWith(now + 60 * SECOND, if s.lines == [] then 0 else s.lines[0].hits)
  {
    assert MinTTL(ONE_MINUTE[..0]) == None && ONE_MINUTE[..0] == [];
    assert MinTTL(ONE_MINUTE) == Some(60);
    if s.lines != [] {
      assert s.lines[1..] == [];
      assert Without(s.lines, "a.|A") == [];
    }
  }

  lemma {:induction false} GetStep(s: State, now: int, expireAt: int, hits: nat)
    requires s.opts == PREFETCH_AT_TWO && s.lines == EntryWith(expireAt, hits) && now <= expireAt
    ensures var g := Spec.Get(s, "a.|A", now);
            && g.outcome.Fresh? && g.after.opts == s.opts && g.after.lines == EntryWith(expireAt, hits + 1)
            && (g.wants == Some(ForPrefetch) <==> expireAt - now <= 60 * SECOND && hits + 1 >= 2)
  {
    assert s.lines[1..] == [];
    assert Without(s.lines, "a.|A") == [];
  }

  /** The last lookup is the first since the refill, yet it asks for a prefetch that needs two. */
  lemma {:induction false} RefillKeepsCounting()
    ensures var start, run := Empty(PREFETCH_AT_TWO), RefillRun();
            && Started(start) && OutcomeAt(start, run, 3).Fresh?
            && Spec.Get(At(start, run, 3), "a.|A", 3).wants == Some(ForPrefetch)
            && HitsSinceStore(start, run, 3, "a.|A") + 1 == 1 && Carried(start, run, 3, "a.|A") == 1
            && Find(At(start, run, 3).lines, "a.|A").Some?
            && Find(At(start, run, 3).lines, "a.|A").value.hits != HitsSinceStore(start, run, 3, "a.|A")
  {
    var start, run := Empty(PREFETCH_AT_TWO), RefillRun();
    StoreStep(At(start, run, 0), 0);
    GetStep(At(start, run, 1), 1, 60 * SECOND, 0);
    assert At(start, run, 2).lines == EntryWith(60 * SECOND, 1);
    StoreStep(At(start, run, 2), 2);
    assert At(start, run, 3).lines == EntryWith(2 + 60 * SECOND, 1);
    GetStep(At(start, run, 3), 3, 2 + 60 * SECOND, 1);
  }

  // ---------- accounting ----------

  /** The lookups so far, by outcome; a fresh hit is credited to prefetching if the last store was one. */
  ghost function Tally(start: State, run: seq<Event>, n: nat): Counters
    requires n <= |run|
  {
    if n == 0 then start.counters
    else if !run[n - 1].op.Get? then Tally(start, run, n - 1)
    else
      var c := Tally(start, run, n - 1);
      match OutcomeAt(start, run, n - 1)
      case Miss(_) => c.(misses := c.misses + 1)
      case Stale(_) => c.(staleHits := c.staleHits + 1)
      case Fresh(_) => c.(hits := c.hits + 1,
                          protectedHits := c.protectedHits
                          + if PrefetchedAt(start, run, n - 1, run[n - 1].op.key) then 1 else 0)
  }

  /**
   The last effective store of k before step n came from a prefetch; loaded entries are not marked so by a
   restart.
  */
  ghost predicate PrefetchedAt(start: State, run: seq<Event>, n: nat, k: string)
    requires n <= |run|
  {
    var from := LastStore(start, run, n, k);
    IsLastStore(start, run, n, k, from) && FillingBy(start, run, n, k, from).fromPrefetch
  }

  lemma {:induction false} FreshIsCredited(start: State, run: seq<Event>, i: nat)
    requires i < |run| && Started(start) && run[i].op.Get? && OutcomeAt(start, run, i).Fresh?
    ensures PrefetchedAt(start, run, i, run[i].op.key)
            <==> Find(At(start, run, i).lines, run[i].op.key).value.fromPrefetch
  {
    ListedIsLastStore(start, run, i, run[i].op.key);
  }

  ghost function Lookups(run: seq<Event>, n: nat): nat
    requires n <= |run|
  {
    if n == 0 then 0 else Lookups(run, n - 1) + if run[n - 1].op.Get? then 1 else 0
  }

  /** The counters tell the lookups by outcome, and every lookup is counted as exactly one of hit, stale hit or miss. */
  lemma {:induction false} Accounting(start: State, run: seq<Event>, n: nat)
    requires n <= |run| && Started(start)
    ensures var c := At(start, run, n).counters;
            c == Tally(start, run, n) && c.hits + c.staleHits + c.misses == Lookups(run, n) && c.protectedHits <= c.hits
  {
    if n > 0 {
      Accounting(start, run, n - 1);
      if run[n - 1].op.Get? && OutcomeAt(start, run, n - 1).Fresh? {
        FreshIsCredited(start, run, n - 1);
      }
    }
  }
}
