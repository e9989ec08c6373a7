/**
 Recency over the runs of CacheRuns: the list is ordered by last use (RecencyOrder), a key is evicted
 only if enough others were used since (CrowdedOut), and a key that is looked up in time and often
 enough hits (WorkingSetHits).
*/
module CacheRecency {
  import opened Wrappers
  import opened Messages
  import opened Keys
  import opened CacheSpec
  import opened CacheRuns
  import Spec = CacheSpec

  // ---------- recency ----------

  /** Step i uses k, by a hit or an effective store. */
  ghost predicate Uses(start: State, run: seq<Event>, i: nat, k: string)
    requires i < |run|
  {
    Used(At(start, run, i), run[i]) == Some(k)
  }

  /** The place of k in a list; the length of the list if it is not there. */
  function Place(lines: seq<Line>, k: string): nat {
    if lines == [] || lines[0].key == k then 0 else 1 + Place(lines[1..], k)
  }

  /** The keys used by the first n steps, step by step. */
  ghost function UseTrace(start: State, run: seq<Event>, n: nat): seq<Option<string>>
    requires n <= |run|
  {
    if n == 0 then [] else UseTrace(start, run, n - 1) + [Used(At(start, run, n - 1), run[n - 1])]
  }

  lemma {:induction false} TraceLength(start: State, run: seq<Event>, n: nat)
    requires n <= |run|
    ensures |UseTrace(start, run, n)| == n
  {
    if n > 0 {
      TraceLength(start, run, n - 1);
    }
  }

  ghost function LastIn(lines: seq<Line>, trace: seq<Option<string>>, k: string): int {
    if trace == [] then -1 - Place(lines, k)
    else if trace[|trace| - 1] == Some(k) then |trace| - 1
    else LastIn(lines, trace[..|trace| - 1], k)
  }

  /**
   The step that last used k. A loaded key not used yet counts as used before the first step, earlier
   the further back it was in the loaded list; any other unused key, before all of those.
  */
  ghost function LastUse(start: State, run: seq<Event>, n: nat, k: string): int
    requires n <= |run|
  {
    LastIn(start.lines, UseTrace(start, run, n), k)
  }

  lemma {:induction false} LastUseStep(start: State, run: seq<Event>, n: nat, k: string)
    requires 0 < n <= |run|
    ensures LastUse(start, run, n, k) == if Uses(start, run, n - 1, k) then n - 1 else LastUse(start, run, n - 1, k)
  {
    TraceLength(start, run, n - 1);
    LastInOneMore(start.lines, UseTrace(start, run, n - 1), Used(At(start, run, n - 1), run[n - 1]), k);
  }

  lemma {:induction false} LastInOneMore(lines: seq<Line>, trace: seq<Option<string>>, used: Option<string>, k: string)
    ensures LastIn(lines, trace + [used], k) == if used == Some(k) then |trace| else LastIn(lines, trace, k)
  {
    assert (trace + [used])[..|trace|] == trace;
  }

  lemma {:induction false} LastInBound(lines: seq<Line>, trace: seq<Option<string>>, k: string)
    ensures LastIn(lines, trace, k) < |trace|
  {
    if trace != [] {
      LastInBound(lines, trace[..|trace| - 1], k);
    }
  }

  lemma {:induction false} TraceAt(start: State, run: seq<Event>, n: nat, u: nat)
    requires u < n <= |run|
    ensures |UseTrace(start, run, n)| == n && UseTrace(start, run, n)[u] == Used(At(start, run, u), run[u])
  {
    TraceLength(start, run, n - 1);
    OneMoreAt(UseTrace(start, run, n - 1), Used(At(start, run, n - 1), run[n - 1]), u);
    if u < n - 1 {
      TraceAt(start, run, n - 1, u);
    }
  }

  lemma {:induction false} OneMoreAt(trace: seq<Option<string>>, x: Option<string>, u: nat)
    requires u <= |trace|
    ensures |trace + [x]| == |trace| + 1 && (trace + [x])[u] == if u == |trace| then x else trace[u]
  {}

  lemma {:induction false} LastInMeans(lines: seq<Line>, trace: seq<Option<string>>, k: string, u: nat)
    requires u < |trace|
    ensures LastIn(lines, trace, k) == u ==> trace[u] == Some(k)
    ensures LastIn(lines, trace, k) < u ==> trace[u] != Some(k)
  {
    var before := trace[..|trace| - 1];
    LastInBound(lines, before, k);
    if u < |before| {
      LastInMeans(lines, before, k, u);
    }
  }

  /** Step u uses k and no step between u and n does. */
  lemma {:induction false} LastUseMeans(start: State, run: seq<Event>, n: nat, k: string, u: nat)
    requires u < n <= |run|
    ensures LastUse(start, run, n, k) == u ==> Uses(start, run, u, k)
    ensures LastUse(start, run, n, k) < u ==> !Uses(start, run, u, k)
  {
    TraceAt(start, run, n, u);
    LastInMeans(start.lines, UseTrace(start, run, n), k, u);
  }

  /** The rank of a key that no step has used. */
  lemma {:induction false} UnusedRank(start: State, run: seq<Event>, n: nat, k: string)
    requires n <= |run| && forall u :: 0 <= u < n ==> !Uses(start, run, u, k)
    ensures LastUse(start, run, n, k) == -1 - Place(start.lines, k)
  {
    if n > 0 {
      UnusedRank(start, run, n - 1, k);
      LastUseStep(start, run, n, k);
    }
  }

  ghost function LastUses(start: State, run: seq<Event>, n: nat): string -> int
    requires n <= |run|
  {
    k => LastUse(start, run, n, k)
  }

  /** The ranks of the listed keys decrease strictly along the list, starting below top. */
  ghost predicate Chain(rank: string -> int, lines: seq<Line>, top: int) {
    lines != [] ==> rank(lines[0].key) < top && Chain(rank, lines[1..], rank(lines[0].key))
  }

  lemma {:induction false} ChainWeaken(rank: string -> int, lines: seq<Line>, low: int, top: int)
    requires Chain(rank, lines, low) && low <= top
    ensures Chain(rank, lines, top)
  {}

  lemma {:induction false} ChainAt(rank: string -> int, lines: seq<Line>, top: int, a: nat)
    requires Chain(rank, lines, top) && a < |lines|
    ensures rank(lines[a].key) < top
  {
    if a > 0 {
      ChainAt(rank, lines[1..], rank(lines[0].key), a - 1);
    }
  }

  lemma {:induction false} ChainPair(rank: string -> int, lines: seq<Line>, top: int, a: nat, b: nat)
    requires Chain(rank, lines, top) && a < b < |lines|
    ensures rank(lines[a].key) > rank(lines[b].key)
  {
    if a > 0 {
      ChainPair(rank, lines[1..], rank(lines[0].key), a - 1, b - 1);
    } else {
      ChainAt(rank, lines[1..], rank(lines[0].key), b - 1);
    }
  }

  lemma {:induction false} ChainWithout(rank: string -> int, lines: seq<Line>, top: int, k: string)
    requires Chain(rank, lines, top)
    ensures Chain(rank, Without(lines, k), top)
  {
    if lines != [] {
      ChainWithout(rank, lines[1..], rank(lines[0].key), k);
      if lines[0].key == k {
        ChainWeaken(rank, Without(lines[1..], k), rank(lines[0].key), top);
      } else {
        assert Without(lines, k)[1..] == Without(lines[1..], k);
      }
    }
  }

  lemma {:induction false} ChainWithoutName(rank: string -> int, lines: seq<Line>, top: int, name: string)
    requires Chain(rank, lines, top)
    ensures Chain(rank, WithoutName(lines, name), top)
  {
    if lines != [] {
      ChainWithoutName(rank, lines[1..], rank(lines[0].key), name);
      if NameMatches(lines[0].key, name) {
        ChainWeaken(rank, WithoutName(lines[1..], name), rank(lines[0].key), top);
      } else {
        assert WithoutName(lines, name)[1..] == WithoutName(lines[1..], name);
      }
    }
  }

  lemma {:induction false} ChainPrefix(rank: string -> int, lines: seq<Line>, top: int, n: nat)
    requires Chain(rank, lines, top) && n <= |lines|
    ensures Chain(rank, lines[..n], top)
  {
    if n > 0 {
      ChainPrefix(rank, lines[1..], rank(lines[0].key), n - 1);
      assert lines[..n][1..] == lines[1..][..n - 1];
    }
  }

  /** Changing the rank of a key that is not listed changes nothing. */
  lemma {:induction false} ChainRerank(before: string -> int, after: string -> int, lines: seq<Line>, top: int,
                                       k: string)
    requires Chain(before, lines, top) && Find(lines, k).None?
    requires forall q :: q != k ==> after(q) == before(q)
    ensures Chain(after, lines, top)
  {
    if lines != [] {
      ChainRerank(before, after, lines[1..], before(lines[0].key), k);
    }
  }

  lemma {:induction false} ChainFront(before: string -> int, after: string -> int, x: Line, rest: seq<Line>, top: int)
    requires Chain(before, rest, top) && Find(rest, x.key).None?
    requires forall q :: q != x.key ==> after(q) == before(q)
    requires after(x.key) == top
    ensures Chain(after, [x] + rest, top + 1)
  {
    ChainRerank(before, after, rest, top, x.key);
    assert ([x] + rest)[1..] == rest;
  }

  /** A step that uses k gives k the top rank; the list stays ordered by rank. */
  lemma {:induction false} ChainUse(before: string -> int, after: string -> int, s: State, e: Event, k: string,
                                    top: int)
    requires Good(s) && Chain(before, s.lines, top) && Used(s, e) == Some(k)
    requires forall q :: q != k ==> after(q) == before(q)
    requires after(k) == top
    ensures Chain(after, Apply(s, e).lines, top + 1)
  {
    FindKey(s.lines, k);
    FindWithout(s.lines, k, k);
    ChainWithout(before, s.lines, top, k);
    var lines := Apply(s, e).lines;
    if Find(s.lines, k).Some? {
      ChainFront(before, after, lines[0], Without(s.lines, k), top);
      assert lines == [lines[0]] + Without(s.lines, k);
    } else {
      var x := Line(k, e.op.packed.value, e.now + ClampedTTL(s.opts, e.op.answer), 0, e.op.fromPrefetch);
      ChainFront(before, after, x, s.lines, top);
      if |s.lines| >= s.opts.maxEntries {
        ChainPrefix(after, [x] + s.lines, top + 1, s.opts.maxEntries);
      }
    }
  }

  lemma {:induction false} ChainNoUse(rank: string -> int, s: State, e: Event, top: int)
    requires Chain(rank, s.lines, top)
    requires Used(s, e).None?
    ensures Chain(rank, Apply(s, e).lines, top)
  {
    match e.op
    case Get(k) =>
      FindKey(s.lines, k);
      ChainWithout(rank, s.lines, top, k);
    case Store(k, _, _, _) =>
    case Delete(k) => ChainWithout(rank, s.lines, top, k);
    case Flush =>
    case FlushName(name) => ChainWithoutName(rank, s.lines, top, name);
    case UpdateRuntime(_) =>
  }

  lemma {:induction false} PlaceAt(lines: seq<Line>, i: nat)
    requires Distinct(lines) && i < |lines|
    ensures Place(lines, lines[i].key) == i
  {
    if i > 0 {
      DistinctPair(lines, 0, i);
      PlaceAt(lines[1..], i - 1);
    }
  }

  /** The loaded list is in the order of its own places. */
  lemma {:induction false} PlaceChain(lines: seq<Line>, rank: string -> int, i: int)
    requires Distinct(lines) && 0 <= i <= |lines| && forall k :: rank(k) == -1 - Place(lines, k)
    ensures Chain(rank, lines[i..], -i)
    decreases |lines| - i
  {
    if i < |lines| {
      PlaceAt(lines, i);
      PlaceChain(lines, rank, i + 1);
      assert lines[i..][1..] == lines[i + 1..];
    }
  }

  lemma {:induction false} RecencyChain(start: State, run: seq<Event>, n: nat)
    requires n <= |run| && Started(start)
    ensures Chain(LastUses(start, run, n), At(start, run, n).lines, n)
  {
    if n == 0 {
      PlaceChain(start.lines, LastUses(start, run, 0), 0);
      assert start.lines[0..] == start.lines;
    } else {
      RecencyChain(start, run, n - 1);
      AlwaysGood(start, run, n - 1);
      var s, e := At(start, run, n - 1), run[n - 1];
      var before, after := LastUses(start, run, n - 1), LastUses(start, run, n);
      forall q
        ensures after(q) == if Used(s, e) == Some(q) then n - 1 else before(q)
      {
        LastUseStep(start, run, n, q);
      }
      if Used(s, e).Some? {
        ChainUse(before, after, s, e, Used(s, e).value, n - 1);
      } else {
        ChainNoUse(before, s, e, n - 1);
        ChainSame(before, after, Apply(s, e).lines, n - 1);
        ChainWeaken(after, Apply(s, e).lines, n - 1, n);
      }
    }
  }

  lemma {:induction false} ChainSame(before: string -> int, after: string -> int, lines: seq<Line>, top: int)
    requires Chain(before, lines, top) && forall q :: after(q) == before(q)
    ensures Chain(after, lines, top)
  {
    if lines != [] {
      ChainSame(before, after, lines[1..], before(lines[0].key));
    }
  }

  /** The list is ordered by last use, most recent first; loaded keys not used yet keep their order at the back. */
  lemma {:induction false} RecencyOrder(start: State, run: seq<Event>, n: nat)
    requires n <= |run| && Started(start)
    ensures forall a, b :: 0 <= a < b < |At(start, run, n).lines|
              ==> LastUse(start, run, n, At(start, run, n).lines[a].key)
                  > LastUse(start, run, n, At(start, run, n).lines[b].key)
  {
    var lines := At(start, run, n).lines;
    RecencyChain(start, run, n);
    forall a, b | 0 <= a < b < |lines|
      ensures LastUse(start, run, n, lines[a].key) > LastUse(start, run, n, lines[b].key)
    {
      ChainPair(LastUses(start, run, n), lines, n, a, b);
    }
  }

  // ---------- who gets evicted ----------

  /** The keys listed before k. */
  ghost function KeysAhead(lines: seq<Line>, k: string): set<string> {
    if lines == [] || lines[0].key == k then {} else {lines[0].key} + KeysAhead(lines[1..], k)
  }

  lemma {:induction false} KeysAheadMeans(lines: seq<Line>, k: string, q: string)
    ensures q in KeysAhead(lines, k) <==> Place(lines, q) < Place(lines, k)
  {
    if lines != [] && lines[0].key != k {
      KeysAheadMeans(lines[1..], k, q);
    }
  }

  ghost function RivalsIn(lines: seq<Line>, trace: seq<Option<string>>, k: string): set<string> {
    if trace == [] then KeysAhead(lines, k)
    else
      var used, before := trace[|trace| - 1], trace[..|trace| - 1];
      if used == Some(k) then {}
      else RivalsIn(lines, before, k) + if used.Some? then {used.value} else {}
  }

  /** The keys other than k used since k was last used, counting those loaded ahead of it. */
  ghost function Rivals(start: State, run: seq<Event>, n: nat, k: string): set<string>
    requires n <= |run|
  {
    RivalsIn(start.lines, UseTrace(start, run, n), k)
  }

  lemma {:induction false} RivalsStep(start: State, run: seq<Event>, n: nat, k: string)
    requires 0 < n <= |run|
    ensures var used := Used(At(start, run, n - 1), run[n - 1]);
            Rivals(start, run, n, k) == if used == Some(k) then {}
                                        else Rivals(start, run, n - 1, k) + if used.Some? then {used.value} else {}
  {
    RivalsInOneMore(start.lines, UseTrace(start, run, n - 1), Used(At(start, run, n - 1), run[n - 1]), k);
  }

  lemma {:induction false} RivalsInOneMore(lines: seq<Line>, trace: seq<Option<string>>, used: Option<string>,
                                           k: string)
    ensures RivalsIn(lines, trace + [used], k)
            == if used == Some(k) then {} else RivalsIn(lines, trace, k) + if used.Some? then {used.value} else {}
  {
    assert (trace + [used])[..|trace|] == trace;
  }

  lemma {:induction false} RivalsInMeans(lines: seq<Line>, trace: seq<Option<string>>, k: string, q: string)
    ensures q in RivalsIn(lines, trace, k) <==> LastIn(lines, trace, q) > LastIn(lines, trace, k)
  {
    if trace == [] {
      KeysAheadMeans(lines, k, q);
    } else {
      var before := trace[..|trace| - 1];
      RivalsInMeans(lines, before, k, q);
      LastInBound(lines, before, k);
      LastInBound(lines, before, q);
    }
  }

  /** The rivals of k are exactly the keys used later than k. */
  lemma {:induction false} RivalsAreLaterUses(start: State, run: seq<Event>, n: nat, k: string, q: string)
    requires n <= |run|
    ensures q in Rivals(start, run, n, k) <==> LastUse(start, run, n, q) > LastUse(start, run, n, k)
  {
    RivalsInMeans(start.lines, UseTrace(start, run, n), k, q);
  }

  lemma {:induction false} KeyCount(lines: seq<Line>, ks: set<string>)
    requires Distinct(lines) && forall a :: 0 <= a < |lines| ==> lines[a].key in ks
    ensures |lines| <= |ks|
  {
    if lines != [] {
      forall a | 1 <= a < |lines|
        ensures lines[a].key in ks - {lines[0].key}
      {
        DistinctPair(lines, 0, a);
      }
      KeyCount(lines[1..], ks - {lines[0].key});
    }
  }

  /** A store of another key can drop k only from the last place that the bound allows. */
  lemma {:induction false} PushedOut(s: State, e: Event, k: string) returns (a: nat)
    requires Good(s) && e.op.Store? && e.op.key != k
    requires Find(s.lines, k).Some? && Find(Apply(s, e).lines, k).None?
    ensures StoresKey(s.opts, e.op, e.op.key) && Find(s.lines, e.op.key).None?
    ensures a < |s.lines| && s.lines[a].key == k && a + 1 >= s.opts.maxEntries
  {
    a := PutDrops(s, Line(e.op.key, e.op.packed.value, e.now + ClampedTTL(s.opts, e.op.answer), 0, e.op.fromPrefetch),
                  k);
  }

  lemma {:induction false} PutDrops(s: State, x: Line, k: string) returns (a: nat)
    requires Good(s) && x.key != k
    requires Find(s.lines, k).Some? && Find(Put(s, x).lines, k).None?
    ensures Find(s.lines, x.key).None?
    ensures a < |s.lines| && s.lines[a].key == k && a + 1 >= s.opts.maxEntries
  {
    FindKey(s.lines, k);
    a :| 0 <= a < |s.lines| && s.lines[a] == Find(s.lines, k).value;
    match Find(s.lines, x.key)
    case Some(e) =>
      FindFront(x.(hits := e.hits), Without(s.lines, x.key), k);
      FindWithout(s.lines, x.key, k);
    case None =>
      FrontDistinct(x, s.lines);
      if a + 1 < s.opts.maxEntries {
        KeptFound([x] + s.lines, s.opts.maxEntries, a + 1);
      }
  }

  lemma {:induction false} KeptFound(lines: seq<Line>, max: int, a: nat)
    requires Distinct(lines) && a < |lines| && a < max
    ensures Find(Truncate(lines, max), lines[a].key).Some?
  {
    FindListed(lines, a);
    if |lines| > max {
      PrefixDistinct(lines, max);
      FindListed(lines[..max], a);
    }
  }

  lemma {:induction false} AheadAreRivals(start: State, run: seq<Event>, n: nat, a: nat)
    requires n <= |run| && Started(start) && a < |At(start, run, n).lines|
    ensures forall b :: 0 <= b < a
              ==> At(start, run, n).lines[b].key in Rivals(start, run, n, At(start, run, n).lines[a].key)
  {
    RecencyChain(start, run, n);
    var lines := At(start, run, n).lines;
    forall b | 0 <= b < a
      ensures lines[b].key in Rivals(start, run, n, lines[a].key)
    {
      ChainPair(LastUses(start, run, n), lines, n, b, a);
      RivalsAreLaterUses(start, run, n, lines[a].key, lines[b].key);
    }
  }

  lemma {:induction false} AheadCount(start: State, run: seq<Event>, n: nat, a: nat, q: string)
    requires n <= |run| && Started(start) && a < |At(start, run, n).lines| && Find(At(start, run, n).lines, q).None?
    ensures a <= |Rivals(start, run, n, At(start, run, n).lines[a].key) - {q}|
  {
    var lines := At(start, run, n).lines;
    AlwaysGood(start, run, n);
    AheadAreRivals(start, run, n, a);
    PrefixDistinct(lines, a);
    var ahead := lines[..a];
    forall b | 0 <= b < a
      ensures ahead[b].key in Rivals(start, run, n, lines[a].key) - {q}
    {
      FindListed(lines, b);
    }
    KeyCount(ahead, Rivals(start, run, n, lines[a].key) - {q});
  }

  /** A store drops k to make room only if at least MaxEntries other keys were used since k. */
  lemma {:induction false} CrowdedOut(start: State, run: seq<Event>, n: nat, k: string)
    requires 0 < n <= |run| && Started(start) && run[n - 1].op.Store? && run[n - 1].op.key != k
    requires Find(At(start, run, n - 1).lines, k).Some? && Find(At(start, run, n).lines, k).None?
    ensures |Rivals(start, run, n, k)| >= start.opts.maxEntries
  {
    var q := run[n - 1].op.key;
    AlwaysGood(start, run, n - 1);
    var a := PushedOut(At(start, run, n - 1), run[n - 1], k);
    AheadCount(start, run, n - 1, a, q);
    RivalsStep(start, run, n, k);
    assert Rivals(start, run, n, k) == (Rivals(start, run, n - 1, k) - {q}) + {q};
  }

  /**
   From any list, also one that a restart with a smaller bound has left too long, a store of a new key
   keeps exactly the most recent entries that the bound allows; a store of a listed key drops none.
  */
  lemma {:induction false} InsertRestoresBound(s: State, x: Line)
    requires s.opts.maxEntries > 0 && Distinct(s.lines)
    ensures Find(s.lines, x.key).None? ==>
              && |Put(s, x).lines| <= s.opts.maxEntries
              && Put(s, x).lines ==
                 [x] + s.lines[..if |s.lines| < s.opts.maxEntries then |s.lines| else s.opts.maxEntries - 1]
    ensures Find(s.lines, x.key).Some? ==> |Put(s, x).lines| == |s.lines|
  {
    WithoutDistinct(s.lines, x.key);
  }

  lemma {:induction false} RivalsGrow(start: State, run: seq<Event>, n: nat, k: string)
    requires 0 < n <= |run| && !Uses(start, run, n - 1, k)
    ensures |Rivals(start, run, n - 1, k)| <= |Rivals(start, run, n, k)|
  {
    RivalsStep(start, run, n, k);
    SubsetSize(Rivals(start, run, n - 1, k), Rivals(start, run, n, k));
  }

  /** Step i is a lookup of k that misses. */
  ghost predicate MissAt(start: State, run: seq<Event>, i: nat, k: string)
    requires i < |run|
  {
    MissesKey(At(start, run, i), run[i], k)
  }

  /** The first step after the last store. */
  function Since(from: Origin): nat {
    if from.Step? then from.index + 1 else 0
  }

  /**
   True LRU, seen from the caller: a stored or loaded key whose lookups have not missed is still there
   while fewer than MaxEntries other keys have been used since its own last use.
  */
  lemma {:induction false} WorkingSetStays(start: State, run: seq<Event>, n: nat, k: string)
    requires n <= |run| && Started(start) && LastStore(start, run, n, k) != Nowhere
    requires forall i :: Since(LastStore(start, run, n, k)) <= i < n ==> !MissAt(start, run, i, k)
    requires |Rivals(start, run, n, k)| < start.opts.maxEntries
    ensures Find(At(start, run, n).lines, k).Some?
  {
    if n == 0 {
    } else if Stores(start, run, n - 1, k) {
      StoredIsListed(start, run, n, k);
    } else {
      LastStoreKept(start, run, n, k);
      if !Uses(start, run, n - 1, k) {
        RivalsGrow(start, run, n, k);
        WorkingSetStays(start, run, n - 1, k);
      }
      StaysListed(start, run, n, k);
    }
  }

  lemma {:induction false} StoredIsListed(start: State, run: seq<Event>, n: nat, k: string)
    requires 0 < n <= |run| && Started(start) && Stores(start, run, n - 1, k)
    ensures Find(At(start, run, n).lines, k).Some?
  {
    AlwaysGood(start, run, n - 1);
    FindAfter(At(start, run, n - 1), run[n - 1], k);
  }

  lemma {:induction false} LastStoreKept(start: State, run: seq<Event>, n: nat, k: string)
    requires 0 < n <= |run| && LastStore(start, run, n, k) != Nowhere && !Stores(start, run, n - 1, k)
    ensures LastStore(start, run, n - 1, k) == LastStore(start, run, n, k) && !RemovesKey(run[n - 1].op, k)
    ensures Since(LastStore(start, run, n, k)) <= n - 1
  {
    LastStoreMeans(start, run, n - 1, k, LastStore(start, run, n - 1, k));
  }

  /** One step neither stores nor removes k, and does not crowd it out. */
  lemma {:induction false} StaysListed(start: State, run: seq<Event>, n: nat, k: string)
    requires 0 < n <= |run| && Started(start) && !Stores(start, run, n - 1, k)
    requires Uses(start, run, n - 1, k) || Find(At(start, run, n - 1).lines, k).Some?
    requires !RemovesKey(run[n - 1].op, k) && !MissAt(start, run, n - 1, k)
    requires |Rivals(start, run, n, k)| < start.opts.maxEntries
    ensures Find(At(start, run, n).lines, k).Some?
  {
    AlwaysGood(start, run, n - 1);
    FindAfter(At(start, run, n - 1), run[n - 1], k);
    if Find(At(start, run, n).lines, k).None? {
      CrowdedOut(start, run, n, k);
    }
  }

  /**
   k was last stored, or loaded, at from; no lookup of k has missed since; and fewer than MaxEntries
   other keys have been used since k was.
  */
  ghost predicate InWorkingSet(start: State, run: seq<Event>, i: nat, k: string, from: Origin)
    requires i <= |run|
  {
    && IsLastStore(start, run, i, k, from)
    && (forall l :: Since(from) <= l < i ==> !MissAt(start, run, l, k))
    && |Rivals(start, run, i, k)| < start.opts.maxEntries
  }

  /** How long an expired entry stays usable: for staleMaxAge, in a cache that can refresh. */
  function StaleWindow(o: Options): int {
    if o.canRefresh then o.staleMaxAge else 0
  }

  /** When a lookup must hit: for a key in the working set whose answer unpacks, its age alone decides. */
  lemma {:induction false} LookupDecided(start: State, run: seq<Event>, i: nat, from: Origin)
    requires i < |run| && Started(start) && run[i].op.Get? && InWorkingSet(start, run, i, run[i].op.key, from)
    ensures var x := FillingBy(start, run, i, run[i].op.key, from);
            var late := run[i].now - x.expireAt;
            x.packed.decoded.Some? ==>
              && (OutcomeAt(start, run, i).Fresh? <==> late <= 0)
              && (OutcomeAt(start, run, i).Stale? <==> 0 < late <= StaleWindow(At(start, run, i).opts))
              && (OutcomeAt(start, run, i) == Miss(Expired) <==> late > 0 && late > StaleWindow(At(start, run, i).opts))
  {
    var k := run[i].op.key;
    LastStoreMeans(start, run, i, k, from);
    WorkingSetStays(start, run, i, k);
    ListedIsLastStore(start, run, i, k);
  }

  /** Every lookup of k since from came within the stored lifetime or stale window, and with room for k. */
  ghost predicate LookedUpInTime(start: State, run: seq<Event>, n: nat, k: string, from: Origin)
    requires n <= |run| && IsLastStore(start, run, n, k, from)
  {
    forall l :: Since(from) <= l < n && run[l].op == Op.Get(k) ==>
      && InTime(At(start, run, l).opts, run[l].now - FillingBy(start, run, n, k, from).expireAt)
      && |Rivals(start, run, l, k)| < start.opts.maxEntries
  }

  predicate InTime(o: Options, late: int) {
    late <= 0 || late <= StaleWindow(o)
  }

  lemma {:induction false} LastStoreBefore(start: State, run: seq<Event>, l: nat, n: nat, k: string, from: Origin)
    requires l <= n <= |run| && IsLastStore(start, run, n, k, from) && Since(from) <= l
    ensures IsLastStore(start, run, l, k, from)
    ensures FillingBy(start, run, l, k, from) == FillingBy(start, run, n, k, from)
    decreases n - l
  {
    if l < n {
      LastStoreBefore(start, run, l, n - 1, k, from);
    }
  }

  lemma {:induction false} InTimeHits(start: State, run: seq<Event>, l: nat, k: string, from: Origin)
    requires l < |run| && Started(start) && run[l].op == Op.Get(k) && InWorkingSet(start, run, l, k, from)
    requires FillingBy(start, run, l, k, from).packed.decoded.Some?
    requires InTime(At(start, run, l).opts, run[l].now - FillingBy(start, run, l, k, from).expireAt)
    ensures !MissAt(start, run, l, k)
  {
    LookupDecided(start, run, l, from);
  }

  lemma {:induction false} NextInTime(start: State, run: seq<Event>, n: nat, k: string, from: Origin, l: nat)
    requires n <= |run| && Started(start) && IsLastStore(start, run, n, k, from) && Since(from) <= l < n
    requires FillingBy(start, run, n, k, from).packed.decoded.Some? && LookedUpInTime(start, run, n, k, from)
    requires forall i :: Since(from) <= i < l ==> !MissAt(start, run, i, k)
    ensures !MissAt(start, run, l, k)
  {
    if run[l].op == Op.Get(k) {
      LastStoreBefore(start, run, l, n, k, from);
      InTimeHits(start, run, l, k, from);
    }
  }

  /** Lookups in time never miss, one after the other. */
  lemma {:induction false} InTimeNeverMisses(start: State, run: seq<Event>, n: nat, k: string, from: Origin, m: nat)
    requires n <= |run| && Started(start) && IsLastStore(start, run, n, k, from) && Since(from) <= m <= n
    requires FillingBy(start, run, n, k, from).packed.decoded.Some? && LookedUpInTime(start, run, n, k, from)
    ensures forall l :: Since(from) <= l < m ==> !MissAt(start, run, l, k)
  {
    if m > Since(from) {
      InTimeNeverMisses(start, run, n, k, from, m - 1);
      NextInTime(start, run, n, k, from, m - 1);
    }
  }

  /**
   The working set without any talk of misses: a lookup in time of a stored or loaded key, all of whose
   lookups since came in time and with fewer than MaxEntries other keys used since its last use, is a hit.
  */
  lemma {:induction false} WorkingSetHits(start: State, run: seq<Event>, i: nat, k: string, from: Origin)
    requires i < |run| && Started(start) && run[i].op == Op.Get(k) && IsLastStore(start, run, i, k, from)
    requires FillingBy(start, run, i, k, from).packed.decoded.Some? && LookedUpInTime(start, run, i, k, from)
    requires |Rivals(start, run, i, k)| < start.opts.maxEntries
    ensures OutcomeAt(start, run, i).Fresh? || OutcomeAt(start, run, i).Stale?
            <==> InTime(At(start, run, i).opts, run[i].now - FillingBy(start, run, i, k, from).expireAt)
    ensures InWorkingSet(start, run, i, k, from)
  {
    InTimeNeverMisses(start, run, i, k, from, i);
    LookupDecided(start, run, i, from);
  }
}
