/**
 Runs of the answer cache: any sequence of timed operations, starting from an empty cache or from
 one whose entries were loaded from a file. Loading counts as the first store of a loaded key, and
 as a use of all loaded keys, the first in the list last.
 Main results: the cache refines a map from keys to their last effective store (ListedIsLastStore,
 HitIsLastStore), and how many entries it can hold (LengthBound). CacheRecency goes on with the order of
 the list and who is evicted, CacheCounts with hit counts, refreshes and counters.
*/
module CacheRuns {
  import opened Wrappers
  import opened Messages
  import opened Keys
  import opened CacheSpec
  import opened Persist
  import Spec = CacheSpec

  datatype Op =
    | Get(key: string)
    | Store(key: string, answer: seq<RR>, packed: Option<Packed>, fromPrefetch: bool)
    | Delete(key: string)
    | Flush
    | FlushName(name: string)
    | UpdateRuntime(settings: Runtime)

  datatype Event = Event(op: Op, now: int)

  function Apply(s: State, e: Event): State {
    match e.op
    case Get(k) => Spec.Get(s, k, e.now).after
    case Store(k, answer, packed, fromPrefetch) => Spec.Store(s, k, answer, packed, fromPrefetch, e.now)
    case Delete(k) => Spec.Delete(s, k)
    case Flush => Spec.Flush(s)
    case FlushName(name) => Spec.FlushName(s, name)
    case UpdateRuntime(r) => Spec.UpdateRuntime(s, r)
  }

  /** The state after the first n events of a run. */
  function At(start: State, run: seq<Event>, n: nat): State
    requires n <= |run|
  {
    if n == 0 then start else Apply(At(start, run, n - 1), run[n - 1])
  }

  /** What the lookup at step i yields. */
  function OutcomeAt(start: State, run: seq<Event>, i: nat): Outcome
    requires i < |run| && run[i].op.Get?
  {
    Spec.Get(At(start, run, i), run[i].op.key, run[i].now).outcome
  }

  // ---------- what every step keeps ----------

  ghost predicate Good(s: State) {
    s.opts.maxEntries > 0 && Distinct(s.lines)
  }

  lemma {:induction false} ToFrontGood(s: State, x: Line)
    requires Good(s) && Find(s.lines, x.key).Some?
    ensures Good(s.(lines := [x] + Without(s.lines, x.key)))
  {
    WithoutDistinct(s.lines, x.key);
    FindWithout(s.lines, x.key, x.key);
    FrontDistinct(x, Without(s.lines, x.key));
  }

  lemma {:induction false} InsertGood(s: State, x: Line)
    requires Good(s) && Find(s.lines, x.key).None?
    ensures Good(s.(lines := Truncate([x] + s.lines, s.opts.maxEntries)))
  {
    FrontDistinct(x, s.lines);
    if |s.lines| >= s.opts.maxEntries {
      PrefixDistinct([x] + s.lines, s.opts.maxEntries);
    }
  }

  lemma {:induction false} GetGood(s: State, k: string, now: int)
    requires Good(s)
    ensures Good(Spec.Get(s, k, now).after)
  {
    FindKey(s.lines, k);
    WithoutDistinct(s.lines, k);
    if Find(s.lines, k).Some? {
      var e := Find(s.lines, k).value;
      ToFrontGood(s, e.(hits := e.hits + 1));
    }
  }

  lemma {:induction false} PutGood(s: State, x: Line)
    requires Good(s)
    ensures Good(Put(s, x))
  {
    FindKey(s.lines, x.key);
    match Find(s.lines, x.key)
    case Some(e) => ToFrontGood(s, x.(hits := e.hits));
    case None => InsertGood(s, x);
  }

  lemma {:induction false} StepGood(s: State, e: Event)
    requires Good(s)
    ensures Good(Apply(s, e)) && Apply(s, e).opts.maxEntries == s.opts.maxEntries
  {
    match e.op
    case Get(k) => GetGood(s, k, e.now);
    case Store(k, answer, packed, fromPrefetch) =>
      if Effective(s.opts, answer, packed) {
        PutGood(s, Line(k, packed.value, e.now + ClampedTTL(s.opts, answer), 0, fromPrefetch));
      }
    case Delete(k) => WithoutDistinct(s.lines, k);
    case Flush =>
    case FlushName(name) => WithoutNameDistinct(s.lines, name);
    case UpdateRuntime(r) =>
  }

  /** No key is listed twice in any reachable state. */
  lemma {:induction false} AlwaysGood(start: State, run: seq<Event>, n: nat)
    requires n <= |run| && Started(start)
    ensures Good(At(start, run, n)) && At(start, run, n).opts.maxEntries == start.opts.maxEntries
  {
    if n > 0 {
      AlwaysGood(start, run, n - 1);
      StepGood(At(start, run, n - 1), run[n - 1]);
    }
  }

  /** The operation effectively stores a key that is not listed. */
  predicate Inserts(s: State, e: Event) {
    Stored(s.opts, e.op).Some? && Find(s.lines, e.op.key).None?
  }

  /** Only an inserting store makes the list longer, and it leaves no more than MaxEntries entries. */
  lemma {:induction false} StepLength(s: State, e: Event)
    requires Good(s)
    ensures |Apply(s, e).lines| <= if Inserts(s, e) then s.opts.maxEntries else |s.lines|
  {
    match e.op
    case Get(k) =>
      FindKey(s.lines, k);
      WithoutDistinct(s.lines, k);
    case Store(k, _, _, _) => WithoutDistinct(s.lines, k);
    case Delete(k) => WithoutDistinct(s.lines, k);
    case Flush =>
    case FlushName(name) => WithoutNameDistinct(s.lines, name);
    case UpdateRuntime(r) =>
  }

  ghost predicate InsertedBefore(start: State, run: seq<Event>, n: nat)
    requires n <= |run|
  {
    n > 0 && (Inserts(At(start, run, n - 1), run[n - 1]) || InsertedBefore(start, run, n - 1))
  }

  /** The bound holds from the first inserting store on; until then the list is no longer than the loaded one. */
  lemma {:induction false} LengthBound(start: State, run: seq<Event>, n: nat)
    requires n <= |run| && Started(start)
    ensures |At(start, run, n).lines| <= if InsertedBefore(start, run, n) then start.opts.maxEntries else |start.lines|
  {
    if n > 0 {
      LengthBound(start, run, n - 1);
      LengthStep(start, run, n);
    }
  }

  lemma {:induction false} LengthStep(start: State, run: seq<Event>, n: nat)
    requires 0 < n <= |run| && Started(start)
    ensures |At(start, run, n).lines| <= if Inserts(At(start, run, n - 1), run[n - 1]) then start.opts.maxEntries
                                         else |At(start, run, n - 1).lines|
  {
    AlwaysGood(start, run, n - 1);
    StepLength(At(start, run, n - 1), run[n - 1]);
  }

  /** A cache that loaded no more than MaxEntries entries never holds more. */
  lemma {:induction false} NeverTooLong(start: State, run: seq<Event>, n: nat)
    requires n <= |run| && Started(start) && |start.lines| <= start.opts.maxEntries
    ensures |At(start, run, n).lines| <= start.opts.maxEntries
  {
    LengthBound(start, run, n);
  }

  /** Loading does not apply the bound: a file with two entries fills a cache made for one. */
  lemma {:induction false} LoadCanExceedBound(o: Options)
    requires o.maxEntries == 1
    ensures var packed := Packed(None);
            var start := Restarted(o, Load([Saved("a.|A", packed, 9, 0), Saved("b.|A", packed, 9, 0)], 5));
            Started(start) && |start.lines| > start.opts.maxEntries
  {
    var packed := Packed(None);
    var first, second := Saved("a.|A", packed, 9, 0), Saved("b.|A", packed, 9, 0);
    assert [first, second][1..] == [second] && [second][1..] == [];
    assert Load([second], 5) == [Restored(second)];
    assert Load([first, second], 5) == [Restored(first), Restored(second)];
    assert [Restored(first), Restored(second)][1..] == [Restored(second)];
    assert first.key[0] != second.key[0];
  }

  // ---------- one step, seen as a change of the map ----------

  /** The operation asks for k to be dropped. */
  predicate RemovesKey(op: Op, k: string) {
    match op
    case Delete(q) => q == k
    case Flush => true
    case FlushName(name) => NameMatches(k, name)
    case _ => false
  }

  /** The key that the operation effectively stores. */
  function Stored(o: Options, op: Op): Option<string> {
    if op.Store? && Effective(o, op.answer, op.packed) then Some(op.key) else None
  }

  predicate StoresKey(o: Options, op: Op, k: string) {
    Stored(o, op) == Some(k)
  }

  /** The operation is a lookup of k that misses. */
  predicate MissesKey(s: State, e: Event, k: string) {
    e.op == Op.Get(k) && Spec.Get(s, k, e.now).outcome.Miss?
  }

  /** The key that the step uses, by a hit or an effective store. */
  function Used(s: State, e: Event): Option<string> {
    match e.op
    case Get(k) => if Spec.Get(s, k, e.now).outcome.Miss? then None else Some(k)
    case Store(k, answer, packed, _) => if Effective(s.opts, answer, packed) then Some(k) else None
    case _ => None
  }

  /** What is listed under k after a step, and where it came from. */
  lemma {:induction false} FindAfter(s: State, e: Event, k: string)
    requires s.opts.maxEntries > 0
    ensures var x := Find(Apply(s, e).lines, k);
            && (StoresKey(s.opts, e.op, k) ==>
                  && x.Some? && x.value.packed == e.op.packed.value && x.value.fromPrefetch == e.op.fromPrefetch
                  && x.value.expireAt == e.now + ClampedTTL(s.opts, e.op.answer))
            && (RemovesKey(e.op, k) || MissesKey(s, e, k) ==> x.None?)
            && (x.Some? && !StoresKey(s.opts, e.op, k) ==>
                  && Find(s.lines, k).Some? && x.value == Find(s.lines, k).value.(hits := x.value.hits))
            && (x.None? && Find(s.lines, k).Some? ==>
                  RemovesKey(e.op, k) || MissesKey(s, e, k) || (e.op.Store? && e.op.key != k))
  {
    match e.op
    case Get(q) => FindAfterGet(s, q, e.now, k);
    case Store(q, answer, packed, fromPrefetch) =>
      if Effective(s.opts, answer, packed) {
        FindAfterPut(s, Line(q, packed.value, e.now + ClampedTTL(s.opts, answer), 0, fromPrefetch), k);
      }
    case Delete(q) => FindWithout(s.lines, q, k);
    case Flush =>
    case FlushName(name) => FindWithoutName(s.lines, name, k);
    case UpdateRuntime(r) =>
  }

  lemma {:induction false} FindAfterGet(s: State, q: string, now: int, k: string)
    ensures var g := Spec.Get(s, q, now);
            var x, y := Find(g.after.lines, k), Find(s.lines, k);
            if q != k then x == y
            else if g.outcome.Miss? then x.None?
            else y.Some? && x == Some(y.value.(hits := y.value.hits + 1))
  {
    FindKey(s.lines, q);
    FindWithout(s.lines, q, k);
    if Find(s.lines, q).Some? {
      var e := Find(s.lines, q).value;
      FindFront(e.(hits := e.hits + 1), Without(s.lines, q), k);
    }
  }

  lemma {:induction false} FindAfterPut(s: State, x: Line, k: string)
    requires s.opts.maxEntries > 0
    ensures var now, was := Find(Put(s, x).lines, k), Find(s.lines, k);
            if x.key != k then now == was || now.None?
            else now == Some(if was.Some? then x.(hits := was.value.hits) else x)
  {
    FindKey(s.lines, x.key);
    FindWithout(s.lines, x.key, k);
    match Find(s.lines, x.key)
    case Some(e) => FindFront(x.(hits := e.hits), Without(s.lines, x.key), k);
    case None =>
      FindFront(x, s.lines, k);
      if |s.lines| + 1 > s.opts.maxEntries {
        FindPrefix([x] + s.lines, s.opts.maxEntries, k);
        assert ([x] + s.lines)[..s.opts.maxEntries][0] == x;
      }
  }

  // ---------- refinement: a hit is the last effective store ----------

  /** Step i effectively stores k. */
  ghost predicate Stores(start: State, run: seq<Event>, i: nat, k: string)
    requires i < |run|
  {
    StoresKey(At(start, run, i).opts, run[i].op, k)
  }

  /** When the entry written by the store at step j expires. */
  ghost function ExpiryOf(start: State, run: seq<Event>, j: nat): int
    requires j < |run| && run[j].op.Store?
  {
    run[j].now + ClampedTTL(At(start, run, j).opts, run[j].op.answer)
  }

  /** Where an entry comes from: the file the cache was started from, or the store at some step. */
  datatype Origin = Nowhere | Loaded | Step(index: nat)

  /** The reference map: the last effective store of k among the first n steps, unless removed since. */
  ghost function LastStore(start: State, run: seq<Event>, n: nat, k: string): Origin
    requires n <= |run|
  {
    if n == 0 then if Find(start.lines, k).Some? then Loaded else Nowhere
    else if Stores(start, run, n - 1, k) then Step(n - 1)
    else if RemovesKey(run[n - 1].op, k) then Nowhere
    else LastStore(start, run, n - 1, k)
  }

  /** No step from j up to n stores k or asks for its removal. */
  ghost predicate LeftAlone(start: State, run: seq<Event>, j: nat, n: nat, k: string)
    requires n <= |run|
  {
    n > j ==> !Stores(start, run, n - 1, k) && !RemovesKey(run[n - 1].op, k) && LeftAlone(start, run, j, n - 1, k)
  }

  ghost predicate IsLastStore(start: State, run: seq<Event>, n: nat, k: string, from: Origin)
    requires n <= |run|
  {
    match from
    case Nowhere => false
    case Loaded => Find(start.lines, k).Some? && LeftAlone(start, run, 0, n, k)
    case Step(j) => j < n && Stores(start, run, j, k) && LeftAlone(start, run, j + 1, n, k)
  }

  lemma {:induction false} LastStoreMeans(start: State, run: seq<Event>, n: nat, k: string, from: Origin)
    requires n <= |run|
    ensures LastStore(start, run, n, k) == from && from != Nowhere <==> IsLastStore(start, run, n, k, from)
  {
    if n > 0 {
      LastStoreMeans(start, run, n - 1, k, from);
    }
  }

  /** What a store leaves under its key, the hit count aside. */
  datatype Filling = Filling(packed: Packed, expireAt: int, fromPrefetch: bool)

  function FillingOf(x: Line): Filling {
    Filling(x.packed, x.expireAt, x.fromPrefetch)
  }

  ghost function FillingBy(start: State, run: seq<Event>, n: nat, k: string, from: Origin): Filling
    requires n <= |run| && IsLastStore(start, run, n, k, from)
  {
    match from
    case Loaded => FillingOf(Find(start.lines, k).value)
    case Step(j) => Filling(run[j].op.packed.value, ExpiryOf(start, run, j), run[j].op.fromPrefetch)
  }

  /**
   Whatever is listed under k carries the payload and expiry of the last effective store of k, or of
   the loaded entry if nothing has stored or removed k since the start.
  */
  lemma {:induction false} ListedIsLastStore(start: State, run: seq<Event>, n: nat, k: string)
    requires n <= |run| && Started(start) && Find(At(start, run, n).lines, k).Some?
    ensures var from := LastStore(start, run, n, k);
            && IsLastStore(start, run, n, k, from)
            && FillingOf(Find(At(start, run, n).lines, k).value) == FillingBy(start, run, n, k, from)
  {
    LastStoreMeans(start, run, n, k, LastStore(start, run, n, k));
    if n > 0 {
      ListedStep(start, run, n, k);
      if !Stores(start, run, n - 1, k) {
        ListedIsLastStore(start, run, n - 1, k);
      }
    }
  }

  /** Where what is listed after a step comes from. */
  lemma {:induction false} ListedStep(start: State, run: seq<Event>, n: nat, k: string)
    requires 0 < n <= |run| && Started(start) && Find(At(start, run, n).lines, k).Some?
    ensures var x := FillingOf(Find(At(start, run, n).lines, k).value);
            if Stores(start, run, n - 1, k) then
              x == Filling(run[n - 1].op.packed.value, ExpiryOf(start, run, n - 1), run[n - 1].op.fromPrefetch)
            else
              && !RemovesKey(run[n - 1].op, k)
              && Find(At(start, run, n - 1).lines, k).Some?
              && x == FillingOf(Find(At(start, run, n - 1).lines, k).value)
  {
    AlwaysGood(start, run, n - 1);
    FindAfter(At(start, run, n - 1), run[n - 1], k);
  }

  /**
   A hit at step i returns the payload of the last effective store of the key, or of its loaded entry,
   with no removal of it since; it is fresh within the stored lifetime and stale for at most
   StaleMaxAge after.
  */
  lemma {:induction false} HitIsLastStore(start: State, run: seq<Event>, i: nat)
    requires i < |run| && Started(start) && run[i].op.Get? && !OutcomeAt(start, run, i).Miss?
    ensures var k := run[i].op.key;
            var from := LastStore(start, run, i, k);
            && IsLastStore(start, run, i, k, from)
            && var x := FillingBy(start, run, i, k, from);
               && x.packed.decoded == Some(OutcomeAt(start, run, i).sections)
               && (OutcomeAt(start, run, i).Fresh? <==> run[i].now <= x.expireAt)
               && (OutcomeAt(start, run, i).Stale? ==>
                     At(start, run, i).opts.canRefresh && run[i].now - x.expireAt <= At(start, run, i).opts.staleMaxAge)
  {
    ListedIsLastStore(start, run, i, run[i].op.key);
  }
}
