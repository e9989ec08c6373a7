/**
 Capacity monotonicity of the answer cache: on the same timed trace, a cache with room for m
 entries is at every moment contained, in order, in one with room for n >= m entries.
*/
module LruInclusion {
  import opened Wrappers
  import opened Messages
  import opened Keys
  import opened CacheSpec
  import Spec = CacheSpec
  import opened CacheRuns

  /** The same cached answer; a larger cache may have counted more hits on it. */
  ghost predicate Same(a: Line, b: Line) {
    a == b.(hits := a.hits) && a.hits <= b.hits
  }

  /** small is a subsequence of large. */
  ghost predicate Included(small: seq<Line>, large: seq<Line>) {
    if small == [] then true
    else if large == [] then false
    else if small[0].key == large[0].key then Same(small[0], large[0]) && Included(small[1..], large[1..])
    else Included(small, large[1..])
  }

  // ---------- the relation and the list operations ----------

  lemma {:induction false} IncludedFind(small: seq<Line>, large: seq<Line>, k: string)
    requires Included(small, large) && Distinct(large)
    ensures Find(small, k).Some? ==> Find(large, k).Some? && Same(Find(small, k).value, Find(large, k).value)
  {
    if small != [] && large != [] {
      if small[0].key == large[0].key {
        IncludedFind(small[1..], large[1..], k);
      } else {
        IncludedFind(small, large[1..], k);
      }
    }
  }

  lemma {:induction false} Prepend(small: seq<Line>, large: seq<Line>, x: Line)
    requires Included(small, large) && Find(small, x.key).None?
    ensures Included(small, [x] + large)
  {}

  lemma {:induction false} PrependBoth(small: seq<Line>, large: seq<Line>, x: Line, y: Line)
    requires Included(small, large) && Same(x, y)
    ensures Included([x] + small, [y] + large)
  {}

  lemma {:induction false} IncludedWithout(small: seq<Line>, large: seq<Line>, k: string)
    requires Included(small, large) && Distinct(large)
    ensures Included(Without(small, k), Without(large, k))
  {
    if small != [] && large != [] {
      if small[0].key == large[0].key {
        IncludedWithout(small[1..], large[1..], k);
        if large[0].key != k {
          PrependBoth(Without(small[1..], k), Without(large[1..], k), small[0], large[0]);
        }
      } else {
        IncludedWithout(small, large[1..], k);
        if large[0].key != k {
          IncludedFind(small, large[1..], large[0].key);
          FindWithout(small, k, large[0].key);
          Prepend(Without(small, k), Without(large[1..], k), large[0]);
        }
      }
    }
  }

  lemma {:induction false} IncludedWithoutName(small: seq<Line>, large: seq<Line>, name: string)
    requires Included(small, large) && Distinct(large)
    ensures Included(WithoutName(small, name), WithoutName(large, name))
    ensures |WithoutName(large, name)| - |WithoutName(small, name)| <= |large| - |small|
  {
    if small == [] {
      WithoutNameDistinct(large, name);
    } else if large != [] {
      if small[0].key == large[0].key {
        IncludedWithoutName(small[1..], large[1..], name);
        if !NameMatches(large[0].key, name) {
          PrependBoth(WithoutName(small[1..], name), WithoutName(large[1..], name), small[0], large[0]);
        }
      } else {
        IncludedWithoutName(small, large[1..], name);
        if !NameMatches(large[0].key, name) {
          IncludedFind(small, large[1..], large[0].key);
          FindWithoutName(small, name, large[0].key);
          Prepend(WithoutName(small, name), WithoutName(large[1..], name), large[0]);
        }
      }
    }
  }

  lemma {:induction false} DropSmallLast(small: seq<Line>, large: seq<Line>)
    requires Included(small, large) && small != []
    ensures Included(small[..|small| - 1], large)
  {
    if |small| > 1 {
      if small[0].key == large[0].key {
        DropSmallLast(small[1..], large[1..]);
        assert small[1..][..|small| - 2] == small[..|small| - 1][1..];
      } else {
        DropSmallLast(small, large[1..]);
      }
    }
  }

  lemma {:induction false} DropBothLast(small: seq<Line>, large: seq<Line>)
    requires Included(small, large) && small != []
    ensures Included(small[..|small| - 1], large[..|large| - 1])
  {
    if |small| > 1 {
      if small[0].key == large[0].key {
        DropBothLast(small[1..], large[1..]);
        assert small[1..][..|small| - 2] == small[..|small| - 1][1..];
        assert large[1..][..|large| - 2] == large[..|large| - 1][1..];
      } else {
        DropBothLast(small, large[1..]);
        assert large[1..][..|large| - 2] == large[..|large| - 1][1..];
      }
    }
  }

  /** Truncation keeps inclusion and the bound on the difference. */
  lemma {:induction false} IncludedTruncate(small: seq<Line>, large: seq<Line>, m: int, n: int)
    requires 0 < m <= n && Included(small, large)
    requires |small| <= m + 1 && |large| <= n + 1 && |large| - |small| <= n - m
    ensures Included(Truncate(small, m), Truncate(large, n))
    ensures |Truncate(large, n)| - |Truncate(small, m)| <= n - m
  {
    if |small| == m + 1 {
      if |large| == n + 1 {
        DropBothLast(small, large);
      } else {
        DropSmallLast(small, large);
      }
    }
  }

  /** Both lists move the same key to the front. */
  lemma {:induction false} BothToFront(small: seq<Line>, large: seq<Line>, x: Line, y: Line)
    requires Included(small, large) && Distinct(small) && Distinct(large)
    requires Find(small, x.key).Some? && Same(x, y)
    ensures Included([x] + Without(small, x.key), [y] + Without(large, x.key))
    ensures |Without(small, x.key)| == |small| - 1 && |Without(large, x.key)| == |large| - 1
  {
    IncludedFind(small, large, x.key);
    IncludedWithout(small, large, x.key);
    WithoutDistinct(small, x.key);
    WithoutDistinct(large, x.key);
    PrependBoth(Without(small, x.key), Without(large, x.key), x, y);
  }

  /** Only the larger list has the key and moves it to the front. */
  lemma {:induction false} LargeToFront(small: seq<Line>, large: seq<Line>, y: Line)
    requires Included(small, large) && Distinct(large)
    requires Find(small, y.key).None? && Find(large, y.key).Some?
    ensures Included(small, [y] + Without(large, y.key)) && |Without(large, y.key)| == |large| - 1
  {
    IncludedWithout(small, large, y.key);
    WithoutAbsent(small, y.key);
    WithoutDistinct(large, y.key);
    Prepend(small, Without(large, y.key), y);
  }

  /** The smaller list gains the key at its front; the larger one has it there too. */
  lemma {:induction false} SmallInserts(small: seq<Line>, large: seq<Line>, x: Line, y: Line)
    requires Included(small, large) && Distinct(large)
    requires Find(small, x.key).None? && Same(x, y)
    ensures Included([x] + small, [y] + Without(large, x.key))
    ensures |Without(large, x.key)| <= |large|
    ensures Find(large, x.key).None? ==> Without(large, x.key) == large
  {
    IncludedWithout(small, large, x.key);
    WithoutAbsent(small, x.key);
    WithoutDistinct(large, x.key);
    if Find(large, x.key).None? {
      WithoutAbsent(large, x.key);
    }
    PrependBoth(small, Without(large, x.key), x, y);
  }

  lemma {:induction false} BothDrop(small: seq<Line>, large: seq<Line>, k: string)
    requires Included(small, large) && Distinct(small) && Distinct(large)
    ensures Included(Without(small, k), Without(large, k))
    ensures |Without(large, k)| - |Without(small, k)| <= |large| - |small|
    ensures Find(small, k).None? ==> Without(small, k) == small
  {
    IncludedFind(small, large, k);
    IncludedWithout(small, large, k);
    WithoutDistinct(small, k);
    WithoutDistinct(large, k);
    if Find(small, k).None? {
      WithoutAbsent(small, k);
    }
  }

  // ---------- one step ----------

  /** small is a subsequence of large, short by at most spare entries. */
  ghost predicate Nested(small: seq<Line>, large: seq<Line>, spare: int) {
    Included(small, large) && |large| - |small| <= spare
  }

  ghost function Spare(s: State, l: State): int {
    l.opts.maxEntries - s.opts.maxEntries
  }

  ghost predicate Within(s: State) {
    Good(s) && |s.lines| <= s.opts.maxEntries
  }

  lemma {:induction false} StepWithin(s: State, e: Event)
    requires Within(s)
    ensures Within(Apply(s, e)) && Apply(s, e).opts.maxEntries == s.opts.maxEntries
  {
    StepGood(s, e);
    StepLength(s, e);
  }

  ghost predicate Inside(s: State, l: State) {
    && Within(s) && Within(l)
    && s.opts == l.opts.(maxEntries := s.opts.maxEntries) && Spare(s, l) >= 0
    && Nested(s.lines, l.lines, Spare(s, l))
  }

  lemma {:induction false} SameDecision(s: State, l: State, k: string, now: int)
    requires Inside(s, l)
    ensures !Spec.Get(s, k, now).outcome.Miss? ==> Spec.Get(l, k, now).outcome == Spec.Get(s, k, now).outcome
  {
    IncludedFind(s.lines, l.lines, k);
  }

  lemma {:induction false} GetNested(s: State, l: State, k: string, now: int)
    requires Inside(s, l)
    ensures Nested(Spec.Get(s, k, now).after.lines, Spec.Get(l, k, now).after.lines, Spare(s, l))
  {
    IncludedFind(s.lines, l.lines, k);
    FindKey(s.lines, k);
    FindKey(l.lines, k);
    if Spec.Get(l, k, now).outcome.Miss? {
      BothDrop(s.lines, l.lines, k);
    } else {
      var e := Find(l.lines, k).value;
      match Find(s.lines, k)
      case None => LargeToFront(s.lines, l.lines, e.(hits := e.hits + 1));
      case Some(d) => BothToFront(s.lines, l.lines, d.(hits := d.hits + 1), e.(hits := e.hits + 1));
    }
  }

  /** The smaller cache inserts; the larger one inserts or refills. */
  lemma {:induction false} StoredAnew(s: State, l: State, x: Line)
    requires Inside(s, l) && Find(s.lines, x.key).None? && x.hits == 0
    ensures var y := if Find(l.lines, x.key).Some? then x.(hits := Find(l.lines, x.key).value.hits) else x;
            var small := Truncate([x] + s.lines, s.opts.maxEntries);
            var large := if Find(l.lines, x.key).Some? then [y] + Without(l.lines, x.key)
                         else Truncate([y] + l.lines, l.opts.maxEntries);
            Nested(small, large, Spare(s, l))
  {
    var y := if Find(l.lines, x.key).Some? then x.(hits := Find(l.lines, x.key).value.hits) else x;
    SmallInserts(s.lines, l.lines, x, y);
    WithoutDistinct(l.lines, x.key);
    IncludedTruncate([x] + s.lines, [y] + Without(l.lines, x.key), s.opts.maxEntries, l.opts.maxEntries);
  }

  lemma {:induction false} PutNested(s: State, l: State, x: Line)
    requires Inside(s, l) && x.hits == 0
    ensures Nested(Put(s, x).lines, Put(l, x).lines, Spare(s, l))
  {
    IncludedFind(s.lines, l.lines, x.key);
    FindKey(s.lines, x.key);
    FindKey(l.lines, x.key);
    match Find(s.lines, x.key)
    case Some(d) => BothToFront(s.lines, l.lines, x.(hits := d.hits), x.(hits := Find(l.lines, x.key).value.hits));
    case None => StoredAnew(s, l, x);
  }

  lemma {:induction false} DeleteNested(s: State, l: State, k: string)
    requires Inside(s, l)
    ensures Nested(Without(s.lines, k), Without(l.lines, k), Spare(s, l))
  {
    BothDrop(s.lines, l.lines, k);
    WithoutDistinct(s.lines, k);
    WithoutDistinct(l.lines, k);
  }

  lemma {:induction false} FlushNameNested(s: State, l: State, name: string)
    requires Inside(s, l)
    ensures Nested(WithoutName(s.lines, name), WithoutName(l.lines, name), Spare(s, l))
  {
    IncludedWithoutName(s.lines, l.lines, name);
    WithoutNameDistinct(s.lines, name);
    WithoutNameDistinct(l.lines, name);
  }

  lemma {:induction false} StoreNested(s: State, l: State, k: string, answer: seq<RR>, packed: Option<Packed>,
                                       fromPrefetch: bool,
                    now: int)
    requires Inside(s, l)
    ensures Nested(Spec.Store(s, k, answer, packed, fromPrefetch, now).lines,
                   Spec.Store(l, k, answer, packed, fromPrefetch, now).lines, Spare(s, l))
  {
    if Effective(s.opts, answer, packed) {
      PutNested(s, l, Line(k, packed.value, now + ClampedTTL(s.opts, answer), 0, fromPrefetch));
    }
  }

  lemma {:induction false} StepNested(s: State, l: State, e: Event)
    requires Inside(s, l)
    ensures Nested(Apply(s, e).lines, Apply(l, e).lines, Spare(s, l))
  {
    match e.op
    case Get(k) => GetNested(s, l, k, e.now);
    case Store(k, answer, packed, fromPrefetch) => StoreNested(s, l, k, answer, packed, fromPrefetch, e.now);
    case Delete(k) => DeleteNested(s, l, k);
    case Flush =>
    case FlushName(name) => FlushNameNested(s, l, name);
    case UpdateRuntime(r) =>
  }

  lemma {:induction false} StepInside(s: State, l: State, e: Event)
    requires Inside(s, l)
    ensures Inside(Apply(s, e), Apply(l, e))
  {
    InsideAgain(s, l, Apply(s, e), Apply(l, e), e);
  }

  lemma {:induction false} InsideAgain(s: State, l: State, s': State, l': State, e: Event)
    requires Inside(s, l) && s' == Apply(s, e) && l' == Apply(l, e)
    requires s'.opts == l'.opts.(maxEntries := s'.opts.maxEntries)
    ensures Inside(s', l')
  {
    StepNested(s, l, e);
    StepWithin(s, e);
    StepWithin(l, e);
  }

  // ---------- whole runs ----------

  /** Two caches that differ only in their bounds, on the same trace: inclusion is kept at every point. */
  lemma {:induction false} LruInclusion(small: State, large: State, run: seq<Event>, i: nat)
    requires Inside(small, large) && i <= |run|
    ensures Inside(At(small, run, i), At(large, run, i))
    ensures Spare(At(small, run, i), At(large, run, i)) == Spare(small, large)
  {
    if i > 0 {
      LruInclusion(small, large, run, i - 1);
      var s, l := At(small, run, i - 1), At(large, run, i - 1);
      StepInside(s, l, run[i - 1]);
      StepGood(s, run[i - 1]);
      StepGood(l, run[i - 1]);
    }
  }

  /** Whatever the smaller cache answers, the larger one answers alike. */
  lemma {:induction false} HitInclusion(small: State, large: State, run: seq<Event>, i: nat)
    requires Inside(small, large) && i < |run| && run[i].op.Get? && !OutcomeAt(small, run, i).Miss?
    ensures OutcomeAt(large, run, i) == OutcomeAt(small, run, i)
  {
    LruInclusion(small, large, run, i);
    SameDecision(At(small, run, i), At(large, run, i), run[i].op.key, run[i].now);
  }

  lemma {:induction false} IncludedSelf(lines: seq<Line>)
    ensures Included(lines, lines)
  {
    if lines != [] {
      IncludedSelf(lines[1..]);
    }
  }

  /**
   Caches with room for m and for n >= m entries start like that when both are empty or load the same file
   of at most m entries.
  */
  lemma {:induction false} StartsInside(o: Options, m: int, n: int, lines: seq<Line>)
    requires 0 < m <= n && Distinct(lines) && |lines| <= m
    ensures var small, large := Restarted(o.(maxEntries := m), lines), Restarted(o.(maxEntries := n), lines);
            Started(small) && Started(large) && Inside(small, large) && Spare(small, large) == n - m
  {
    IncludedSelf(lines);
  }
}
