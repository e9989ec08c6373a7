/** The answer cache itself: a map and a recency list over shared entries, updated in place. */
module AnswerCache {
  import opened Wrappers
  import opened Messages
  import opened Keys
  import Spec = CacheSpec
  import Refresh = RefreshSpec
  import opened CacheSpec
  import opened Persist

  class Entry {
    const key: string
    var packed: Packed
    var expireAt: int
    var hits: nat
    var fromPrefetch: bool

    constructor (key: string, packed: Packed, expireAt: int, hits: nat, fromPrefetch: bool)
      ensures View() == Line(key, packed, expireAt, hits, fromPrefetch)
    {
      this.key, this.packed, this.expireAt := key, packed, expireAt;
      this.hits, this.fromPrefetch := hits, fromPrefetch;
    }

    ghost function View(): Line
      reads this
    {
      Line(key, packed, expireAt, hits, fromPrefetch)
    }
  }

  // ---------- map and list ----------

  /** Unlinking an element from the recency list. */
  function Unlink(es: seq<Entry>, e: Entry): seq<Entry> {
    if es == [] then []
    else if es[0] == e then es[1..]
    else [es[0]] + Unlink(es[1..], e)
  }

  /** The map that indexes the entries of a list by their keys. */
  ghost function Index(es: seq<Entry>): map<string, Entry> {
    if es == [] then map[] else Index(es[1..])[es[0].key := es[0]]
  }

  ghost predicate DistinctKeys(es: seq<Entry>) {
    es != [] ==> es[0].key !in Index(es[1..]) && DistinctKeys(es[1..])
  }

  ghost function LinesOf(es: seq<Entry>): (ls: seq<Line>)
    reads es
    ensures |ls| == |es|
  {
    if es == [] then [] else [es[0].View()] + LinesOf(es[1..])
  }

  /** An indexed entry is in the list. */
  lemma {:induction false} IndexedInList(es: seq<Entry>, k: string)
    requires k in Index(es)
    ensures Index(es)[k] in es && Index(es)[k].key == k
  {
    if es[0].key != k {
      IndexedInList(es[1..], k);
    }
  }

  lemma {:induction false} IndexedAt(es: seq<Entry>, i: nat)
    requires DistinctKeys(es) && i < |es|
    ensures es[i].key in Index(es) && Index(es)[es[i].key] == es[i]
  {
    if i > 0 {
      IndexedAt(es[1..], i - 1);
    }
  }

  lemma {:induction false} UnlinkIndex(es: seq<Entry>, e: Entry)
    requires DistinctKeys(es) && e.key in Index(es) && Index(es)[e.key] == e
    ensures DistinctKeys(Unlink(es, e)) && Index(Unlink(es, e)) == Index(es) - {e.key}
    ensures |Unlink(es, e)| == |es| - 1
    ensures e !in Unlink(es, e) && forall x :: x in Unlink(es, e) ==> x in es
  {
    if es[0] != e {
      assert es[0].key != e.key;
      UnlinkIndex(es[1..], e);
      assert Unlink(es, e)[1..] == Unlink(es[1..], e);
    } else {
      forall i | 1 <= i < |es|
        ensures es[i] != e
      {
        IndexedAt(es[1..], i - 1);
      }
    }
  }

  lemma {:induction false} LineAt(es: seq<Entry>, i: nat)
    requires i < |es|
    ensures LinesOf(es)[i] == es[i].View()
  {
    if i > 0 {
      LineAt(es[1..], i - 1);
    }
  }

  lemma LineKeys(es: seq<Entry>)
    requires DistinctKeys(es)
    ensures forall i :: 0 <= i < |es| ==> LinesOf(es)[i].key in Index(es)
  {
    forall i | 0 <= i < |es|
      ensures LinesOf(es)[i].key in Index(es)
    {
      IndexedAt(es, i);
      LineAt(es, i);
    }
  }

  /** What the specification finds, and removes, under a key. */
  lemma {:induction false} LinesByKey(es: seq<Entry>, k: string)
    requires DistinctKeys(es)
    ensures k !in Index(es) ==> Find(LinesOf(es), k) == None && Without(LinesOf(es), k) == LinesOf(es)
    ensures k in Index(es) ==>
              && Find(LinesOf(es), k) == Some(Index(es)[k].View())
              && Without(LinesOf(es), k) == LinesOf(Unlink(es, Index(es)[k]))
  {
    if es != [] {
      assert LinesOf(es)[0] == es[0].View() && LinesOf(es)[1..] == LinesOf(es[1..]);
      LinesByKey(es[1..], k);
      if k in Index(es) && es[0].key != k {
        var e := Index(es)[k];
        IndexedInList(es, k);
        assert Unlink(es, e) == [es[0]] + Unlink(es[1..], e);
        assert LinesOf(Unlink(es, e)) == [es[0].View()] + LinesOf(Unlink(es[1..], e));
      }
    }
  }

  lemma {:induction false} Append(es: seq<Entry>, e: Entry)
    ensures LinesOf(es + [e]) == LinesOf(es) + [e.View()]
    ensures DistinctKeys(es + [e]) ==> DistinctKeys(es) && Index(es + [e]) == Index(es)[e.key := e]
  {
    if es == [] {
      assert [e][1..] == [];
    } else {
      Append(es[1..], e);
      assert (es + [e])[1..] == es[1..] + [e];
    }
  }

  /** Distinct listed keys are distinct entries keys. */
  lemma {:induction false} KeysDistinct(es: seq<Entry>)
    ensures Distinct(LinesOf(es)) ==> DistinctKeys(es)
  {
    if es != [] {
      assert LinesOf(es)[1..] == LinesOf(es[1..]);
      KeysDistinct(es[1..]);
      if Distinct(LinesOf(es)) {
        LinesByKey(es[1..], es[0].key);
      }
    }
  }

  lemma {:induction false} LinesDistinct(es: seq<Entry>)
    requires DistinctKeys(es)
    ensures Distinct(LinesOf(es))
  {
    if es != [] {
      LinesDistinct(es[1..]);
      LinesByKey(es[1..], es[0].key);
      assert LinesOf(es)[1..] == LinesOf(es[1..]);
    }
  }

  class Cache {
    var opts: Options
    var items: map<string, Entry>
    var order: seq<Entry>  // front = most recently used
    var counters: Counters
    var refreshInFlight: set<string>
    var refreshLastTry: map<string, int>

    /** Map and list hold the same entries, each under its own key. */
    ghost predicate Valid()
      reads this`items, this`order
    {
      DistinctKeys(order) && items == Index(order)
    }

    ghost function Lines(): seq<Line>
      reads this`order, order
    {
      LinesOf(order)
    }

    ghost function View(): State
      reads this`opts, this`counters, this`order, order
    {
      State(opts, Lines(), counters)
    }

    ghost function Book(): Refresh.Book
      reads this`refreshInFlight, this`refreshLastTry
    {
      Refresh.Book(refreshInFlight, refreshLastTry)
    }

    constructor (o: Options)
      ensures Valid() && View() == Spec.Empty(o) && Book() == Refresh.EMPTY_BOOK && order == []
      ensures opts == if o.maxEntries <= 0 then o.(maxEntries := 10000) else o
    {
      opts := if o.maxEntries <= 0 then o.(maxEntries := 10000) else o;
      items, order := map[], [];
      counters := Counters(0, 0, 0, 0);
      refreshInFlight, refreshLastTry := {}, map[];
    }

    ghost predicate Linked(e: Entry)
      reads this`items
    {
      e.key in items && items[e.key] == e
    }

    method RemoveLocked(e: Entry)
      requires Valid() && Linked(e)
      modifies this`items, this`order
      ensures Valid() && Lines() == Without(old(Lines()), e.key)
      ensures items == old(items) - {e.key} && order == Unlink(old(order), e)
      ensures |order| == |old(order)| - 1
      ensures forall x :: x in order ==> x in old(order)
    {
      UnlinkIndex(order, e);
      LinesByKey(order, e.key);
      items := items - {e.key};
      order := Unlink(order, e);
    }

    method MoveToFront(e: Entry)
      requires Valid() && Linked(e)
      modifies this`order
      ensures Valid() && order == [e] + Unlink(old(order), e)
      ensures forall x :: x in order ==> x in old(order)
    {
      UnlinkIndex(order, e);
      IndexedInList(order, e.key);
      order := [e] + Unlink(order, e);
      assert order[1..] == Unlink(old(order), e);
    }

    /** A hit: the entry counts it and becomes the most recently used. */
    method Touch(e: Entry)
      requires Valid() && Linked(e)
      modifies this`order, e`hits
      ensures Valid() && forall x :: x in order ==> x in old(order)
      ensures e.hits == old(e.hits) + 1
      ensures Lines() == [old(e.View()).(hits := old(e.hits) + 1)] + Without(old(Lines()), e.key)
    {
      UnlinkIndex(order, e);
      LinesByKey(order, e.key);
      ghost var rest := Unlink(order, e);
      e.hits := e.hits + 1;
      MoveToFront(e);
      assert order[1..] == rest && LinesOf(rest) == old(LinesOf(rest));
    }

    /** A store over an existing entry: new payload and expiry, same hit count, most recently used. */
    method Refill(e: Entry, packed: Packed, expireAt: int, fromPrefetch: bool)
      requires Valid() && Linked(e)
      modifies this`order, e`packed, e`expireAt, e`fromPrefetch
      ensures Valid() && forall x :: x in order ==> x in old(order)
      ensures Lines() == [Line(e.key, packed, expireAt, old(e.hits), fromPrefetch)] + Without(old(Lines()), e.key)
    {
      UnlinkIndex(order, e);
      LinesByKey(order, e.key);
      ghost var rest := Unlink(order, e);
      e.packed, e.expireAt, e.fromPrefetch := packed, expireAt, fromPrefetch;
      MoveToFront(e);
      assert order[1..] == rest && LinesOf(rest) == old(LinesOf(rest));
    }

    /**
     Looks up k and answers req from it. started is the background refresh this lookup sets going,
     which the caller runs on its own and ends with FinishRefresh.
    */
    method Get(req: Query, k: string, now: int) returns (reply: Option<Msg>, started: Option<RefreshReason>)
      requires Valid()
      modifies this, order
      ensures Valid() && forall e :: e in order ==> e in old(order)
      ensures var g := Spec.Get(old(View()), k, now);
              && View() == g.after
              && reply == (if g.outcome.Miss? then None else Some(Restamp(g.outcome.sections, req)))
              && Book() == (if g.wants.Some? then Refresh.Trigger(old(Book()), k, now) else old(Book()))
              && started == if g.wants.Some? && Refresh.MayStart(old(Book()), k, now) then g.wants else None
    {
      var outcome, wants := LookUp(k, now);
      reply := if outcome.Miss? then None else Some(Restamp(outcome.sections, req));
      started := None;
      if wants.Some? {
        started := TriggerRefresh(k, wants.value, now);
      }
    }

    method LookUp(k: string, now: int) returns (outcome: Outcome, wants: Option<RefreshReason>)
      requires Valid()
      modifies this`items, this`order, this`counters, order
      ensures Valid() && forall e :: e in order ==> e in old(order)
      ensures Lookup(outcome, View(), wants) == Spec.Get(old(View()), k, now)
    {
      wants := None;
      LinesByKey(order, k);
      if k !in items {
        counters := CountMiss(counters);
        return Miss(NotFound), None;
      }
      IndexedInList(order, k);
      var e := items[k];
      if now > e.expireAt && !StaleUsable(opts, now - e.expireAt) {
        RemoveLocked(e);
        counters := CountMiss(counters);
        return Miss(Expired), None;
      }
      outcome, wants := Hit(e, now);
    }

    /** The entry is there and still servable: count it, unpack it, and drop it if it is corrupted. */
    method Hit(e: Entry, now: int) returns (outcome: Outcome, wants: Option<RefreshReason>)
      requires Valid() && Linked(e)
      modifies this`items, this`order, this`counters, e`hits
      ensures Valid() && forall x :: x in order ==> x in old(order)
      ensures Lookup(outcome, View(), wants) == Serve(old(View()), old(e.View()), now)
    {
      ghost var was := Lines();
      var stale := now > e.expireAt;
      Touch(e);
      if e.packed.decoded.None? {
        WithoutTwice(was, e.View());
        RemoveLocked(e);
        counters := CountMiss(counters);
        return Miss(NotFound), None;
      }
      CountHit(stale, e.fromPrefetch);
      if stale {
        return Stale(e.packed.decoded.value), Some(ForStale);
      }
      wants := if WantsPrefetch(opts, e.expireAt - now, e.hits) then Some(ForPrefetch) else None;
      outcome := Fresh(e.packed.decoded.value);
    }

    method CountHit(stale: bool, fromPrefetch: bool)
      modifies this`counters
      ensures counters == if stale then old(counters).(staleHits := old(counters).staleHits + 1)
                          else old(counters).(hits := old(counters).hits + 1,
                                              protectedHits := old(counters).protectedHits
                                                + if fromPrefetch then 1 else 0)
    {
      if stale {
        counters := counters.(staleHits := counters.staleHits + 1);
      } else {
        counters := counters.(hits := counters.hits + 1);
        if fromPrefetch {
          counters := counters.(protectedHits := counters.protectedHits + 1);
        }
      }
    }

    method TriggerRefresh(k: string, reason: RefreshReason, now: int) returns (started: Option<RefreshReason>)
      modifies this`refreshInFlight, this`refreshLastTry
      ensures Book() == if opts.canRefresh then Refresh.Trigger(old(Book()), k, now) else old(Book())
      ensures started == if opts.canRefresh && Refresh.MayStart(old(Book()), k, now) then Some(reason) else None
    {
      if !opts.canRefresh {
        return None;
      }
      if k in refreshInFlight {
        return None;
      }
      if k in refreshLastTry && now - refreshLastTry[k] < Refresh.COOLDOWN {
        return None;
      }
      refreshInFlight := refreshInFlight + {k};
      refreshLastTry := refreshLastTry[k := now];
      return Some(reason);
    }

    /** A background refresh has fetched an answer: it is stored, marked if a prefetch asked for it. */
    method StoreFetched(k: string, reason: RefreshReason, answer: seq<RR>, packed: Option<Packed>, now: int)
      requires Valid()
      modifies this`items, this`order, order
      ensures Valid() && forall e :: e in order ==> e in old(order) || fresh(e)
      ensures View() == Spec.Store(old(View()), k, answer, packed, reason == ForPrefetch, now)
    {
      Store(k, answer, packed, reason == ForPrefetch, now);
    }

    /** The deferred end of a background refresh, in a critical section of its own. */
    method ClearFlag(k: string)
      modifies this`refreshInFlight
      ensures Book() == Refresh.Finish(old(Book()), k)
    {
      refreshInFlight := refreshInFlight - {k};
    }

    /** A background refresh ends undisturbed: it stores what it fetched, if anything, and clears the flag. */
    method FinishRefresh(k: string, reason: RefreshReason, fetched: Option<(seq<RR>, Option<Packed>)>, now: int)
      requires Valid()
      modifies this, order
      ensures Valid() && forall e :: e in order ==> e in old(order) || fresh(e)
      ensures View() == if fetched.None? then old(View())
                        else Spec.Store(old(View()), k, fetched.value.0, fetched.value.1, reason == ForPrefetch, now)
      ensures Book() == Refresh.Finish(old(Book()), k)
    {
      if fetched.Some? {
        StoreFetched(k, reason, fetched.value.0, fetched.value.1, now);
      }
      ClearFlag(k);
    }

    method MinAnswerTTL(answer: seq<RR>) returns (ttl: int, found: bool)
      ensures found == MinTTL(answer).Some? && (found ==> ttl == MinTTL(answer).value)
    {
      ttl, found := 0, false;
      for i := 0 to |answer|
        invariant found == MinTTL(answer[..i]).Some? && (found ==> ttl == MinTTL(answer[..i]).value)
      {
        if i == 0 || answer[i].ttl < ttl {
          ttl := answer[i].ttl;
        }
        found := true;
        assert answer[..i + 1][..i] == answer[..i];
      }
      assert answer[..|answer|] == answer;
    }

    /** The lifetime a store gives: from the answer, clamped, or the negative one. */
    method Lifetime(answer: seq<RR>) returns (ttl: int)
      ensures ttl == ClampedTTL(opts, answer)
    {
      ttl := opts.negativeTTL;
      var minTTL, ok := MinAnswerTTL(answer);
      if ok {
        ttl := minTTL * SECOND;
        if ttl < opts.minTTL {
          ttl := opts.minTTL;
        }
        if opts.maxTTL > 0 && ttl > opts.maxTTL {
          ttl := opts.maxTTL;
        }
      }
    }

    method Store(k: string, answer: seq<RR>, packed: Option<Packed>, fromPrefetch: bool, now: int)
      requires Valid()
      modifies this`items, this`order, order
      ensures Valid() && forall e :: e in order ==> e in old(order) || fresh(e)
      ensures View() == Spec.Store(old(View()), k, answer, packed, fromPrefetch, now)
    {
      var ttl := Lifetime(answer);
      if ttl <= 0 || packed.None? {
        return;
      }
      Put(k, packed.value, now + ttl, fromPrefetch);
    }

    method Put(k: string, packed: Packed, expireAt: int, fromPrefetch: bool)
      requires Valid()
      modifies this`items, this`order, order
      ensures Valid() && forall e :: e in order ==> e in old(order) || fresh(e)
      ensures View() == Spec.Put(old(View()), Line(k, packed, expireAt, 0, fromPrefetch))
    {
      LinesByKey(order, k);
      if k in items {
        IndexedInList(order, k);
        var e := items[k];
        Refill(e, packed, expireAt, fromPrefetch);
      } else {
        Insert(k, packed, expireAt, fromPrefetch);
      }
    }

    method Insert(k: string, packed: Packed, expireAt: int, fromPrefetch: bool)
      requires Valid() && k !in items
      modifies this`items, this`order
      ensures Valid() && forall e :: e in order ==> e in old(order) || fresh(e)
      ensures Lines() == Truncate([Line(k, packed, expireAt, 0, fromPrefetch)] + old(Lines()), opts.maxEntries)
    {
      var e := new Entry(k, packed, expireAt, 0, fromPrefetch);
      ghost var was := order;
      order := [e] + order;
      items := items[k := e];
      assert order[1..] == was;
      assert LinesOf(was) == old(LinesOf(was));
      Evict(Lines());
    }

    /** The eviction loop: entries leave from the back until the bound holds again. */
    method Evict(ghost full: seq<Line>)
      requires Valid() && Lines() == full
      modifies this`items, this`order
      ensures Valid() && (forall e :: e in order ==> e in old(order))
      ensures Lines() == Truncate(full, opts.maxEntries)
    {
      while |order| > opts.maxEntries && |order| > 0
        invariant Valid() && (forall e :: e in order ==> e in old(order))
        invariant |order| <= |full| && Lines() == full[..|order|]
        invariant |order| < |full| ==> |order| >= opts.maxEntries
      {
        PopBack();
      }
    }

    /** The least recently used entry leaves. */
    method PopBack()
      requires Valid() && order != []
      modifies this`items, this`order
      ensures Valid() && (forall e :: e in order ==> e in old(order))
      ensures |order| == |old(order)| - 1 && Lines() == old(Lines())[..|order|]
    {
      IndexedAt(order, |order| - 1);
      LinesDistinct(order);
      WithoutLast(Lines());
      LineAt(order, |order| - 1);
      RemoveLocked(order[|order| - 1]);
    }

    method Delete(k: string)
      requires Valid()
      modifies this`items, this`order
      ensures Valid() && forall e :: e in order ==> e in old(order)
      ensures View() == Spec.Delete(old(View()), k)
    {
      LinesByKey(order, k);
      if k in items {
        IndexedInList(order, k);
        RemoveLocked(items[k]);
      }
    }

    method Flush() returns (n: nat)
      requires Valid()
      modifies this
      ensures Valid() && View() == Spec.Flush(old(View())) && order == []
      ensures n == |old(Lines())| && Book() == Refresh.EMPTY_BOOK
    {
      n := |order|;
      items, order := map[], [];
      refreshInFlight, refreshLastTry := {}, map[];
    }

    method RemoveKey(k: string)
      requires Valid() && k in items
      modifies this`items, this`order
      ensures Valid() && items.Keys == old(items.Keys) - {k} && (forall e :: e in order ==> e in old(order))
      ensures Lines() == Without(old(Lines()), k) && |Lines()| == |old(Lines())| - 1
    {
      IndexedInList(order, k);
      RemoveLocked(items[k]);
    }

    /** The keys are visited in whatever order the map yields them. */
    method FlushName(name: string) returns (removed: nat)
      requires Valid()
      modifies this`items, this`order
      ensures Valid() && forall e :: e in order ==> e in old(order)
      ensures View() == Spec.FlushName(old(View()), name)
      ensures removed == |old(Lines())| - |Lines()|
    {
      removed := 0;
      LineKeys(order);
      var todo := items.Keys;
      ghost var gone: set<string> := {};
      WithoutNone(Lines());
      while todo != {}
        invariant Valid() && (forall e :: e in order ==> e in old(order))
        invariant todo <= items.Keys && items.Keys == old(items.Keys) - gone
        invariant Lines() == WithoutAll(old(Lines()), gone)
        invariant removed == |old(Lines())| - |Lines()|
        invariant forall k :: k in old(items.Keys) && k !in todo ==> (k in gone <==> NameMatches(k, name))
        invariant forall k :: k in gone ==> NameMatches(k, name)
        decreases todo
      {
        var k :| k in todo;
        todo := todo - {k};
        if NameMatches(k, name) {
          WithoutOneMore(old(Lines()), gone, k);
          RemoveKey(k);
          removed := removed + 1;
          gone := gone + {k};
        }
      }
      WithoutMatching(old(Lines()), gone, name);
    }

    method UpdateRuntime(r: Runtime)
      requires Valid()
      modifies this`opts
      ensures Valid() && View() == Spec.UpdateRuntime(old(View()), r)
    {
      if r.minTTL > 0 {
        opts := opts.(minTTL := r.minTTL);
      }
      if r.maxTTL > 0 {
        opts := opts.(maxTTL := r.maxTTL);
      }
      if r.negativeTTL > 0 {
        opts := opts.(negativeTTL := r.negativeTTL);
      }
      opts := opts.(staleMaxAge := r.staleMaxAge);
      opts := opts.(prefetch := r.prefetch);
    }

    method Len() returns (n: nat)
      ensures n == |Lines()|
    {
      n := |order|;
    }

    /** SaveToFile's snapshot. */
    method Snapshot(now: int) returns (saved: seq<Saved>)
      ensures saved == Save(Lines(), now)
    {
      saved := [];
      for i := 0 to |order|
        invariant saved == Save(Lines()[..i], now)
      {
        LineAt(order, i);
        assert Lines()[..i + 1] == Lines()[..i] + [order[i].View()];
        SaveMore(Lines()[..i], order[i].View(), now);
        if !(now > order[i].expireAt) {
          saved := saved + [Saved(order[i].key, order[i].packed, order[i].expireAt, order[i].hits)];
        }
      }
      assert Lines()[..|order|] == Lines();
    }

    /** One loaded entry goes to the back of the list. */
    method PushBack(x: Saved)
      modifies this`items, this`order
      ensures exists e: Entry :: fresh(e) && order == old(order) + [e]
      ensures Lines() == old(Lines()) + [Line(x.key, x.packed, x.expireAt, x.hits, false)]
      ensures DistinctKeys(order) && (DistinctKeys(old(order)) ==> old(items) == Index(old(order)))
              ==> items == Index(order)
    {
      var e := new Entry(x.key, x.packed, x.expireAt, x.hits, false);
      Append(order, e);
      items := items[x.key := e];
      order := order + [e];
    }

    /**
     loadFromFile, which New runs on a still empty cache. The list gets every unexpired entry, in
     file order; map and list agree exactly when no key occurs twice among them.
    */
    method Restore(saved: seq<Saved>, now: int)
      requires order == [] && items == map[]
      modifies this`items, this`order
      ensures forall e :: e in order ==> fresh(e)
      ensures Lines() == Load(saved, now)
      ensures Valid() <==> Distinct(Load(saved, now))
    {
      for i := 0 to |saved|
        invariant forall e :: e in order ==> fresh(e)
        invariant Lines() == Load(saved[..i], now)
        invariant DistinctKeys(order) ==> items == Index(order)
      {
        assert saved[..i + 1] == saved[..i] + [saved[i]];
        LoadMore(saved[..i], saved[i], now);
        if !(now > saved[i].expireAt) {
          PushBack(saved[i]);
        }
      }
      assert saved[..|saved|] == saved;
      if DistinctKeys(order) {
        LinesDistinct(order);
      }
      KeysDistinct(order);
    }
  }

  /** Saving one cache and starting a new one from the file: a coherent cache of what is still unexpired. */
  method Restart(c: Cache, o: Options, saveTime: int, loadTime: int) returns (d: Cache)
    requires c.Valid() && saveTime <= loadTime
    ensures fresh(d) && d.Valid() && d.View() == Restarted(o, Survivors(c.Lines(), loadTime)) && Started(d.View())
    ensures d.Book() == Refresh.EMPTY_BOOK
  {
    var saved := c.Snapshot(saveTime);
    d := new Cache(o);
    d.Restore(saved, loadTime);
    RoundTrip(c.Lines(), saveTime, loadTime);
    LinesDistinct(c.order);
    SurvivorsByKey(c.Lines(), loadTime, "");
  }

  /** Dropping an entry right after moving it to the front is just dropping it. */
  lemma WithoutTwice(lines: seq<Line>, e: Line)
    ensures Without([e] + Without(lines, e.key), e.key) == Without(lines, e.key)
  {
    var rest := Without(lines, e.key);
    FindWithout(lines, e.key, e.key);
    WithoutAbsent(rest, e.key);
    assert ([e] + rest)[1..] == rest;
  }

  // ---------- removing several keys ----------

  ghost function WithoutAll(lines: seq<Line>, ks: set<string>): seq<Line> {
    if lines == [] then []
    else (if lines[0].key in ks then [] else [lines[0]]) + WithoutAll(lines[1..], ks)
  }

  lemma {:induction false} WithoutNone(lines: seq<Line>)
    ensures WithoutAll(lines, {}) == lines
  {
    if lines != [] {
      WithoutNone(lines[1..]);
    }
  }

  lemma {:induction false} WithoutOneMore(lines: seq<Line>, ks: set<string>, k: string)
    ensures Without(WithoutAll(lines, ks), k) == WithoutAll(lines, ks + {k})
  {
    if lines != [] {
      WithoutOneMore(lines[1..], ks, k);
      assert (if lines[0].key in ks then [] else [lines[0]]) + WithoutAll(lines[1..], ks) == WithoutAll(lines, ks);
      if lines[0].key in ks {
        assert WithoutAll(lines, ks) == WithoutAll(lines[1..], ks);
      } else {
        assert WithoutAll(lines, ks)[1..] == WithoutAll(lines[1..], ks);
      }
    }
  }

  lemma {:induction false} WithoutMatching(lines: seq<Line>, ks: set<string>, name: string)
    requires forall i :: 0 <= i < |lines| ==> (lines[i].key in ks <==> NameMatches(lines[i].key, name))
    ensures WithoutAll(lines, ks) == WithoutName(lines, name)
  {
    if lines != [] {
      WithoutMatching(lines[1..], ks, name);
    }
  }
}
