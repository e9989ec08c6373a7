/**
 Scores and the two stable, best-first orders built on them: servers within one transport (Order)
 and transports among each other (OrderTransports). A library sort is taken as the function Sort;
 SortIsUnique shows that any stable descending sort gives the same list.
*/
module Ranking {
  import opened Wrappers
  import opened HealthSpec

  // ---------- stable descending sort ----------

  /** A name with its score and its position in the list to be sorted. */
  datatype Scored = Scored(name: string, score: real, idx: nat)

  predicate Before(a: Scored, b: Scored) {
    a.score > b.score || (a.score == b.score && a.idx < b.idx)
  }

  ghost predicate Sorted(items: seq<Scored>) {
    forall i, j :: 0 <= i < j < |items| ==> Before(items[i], items[j])
  }

  function Insert(x: Scored, items: seq<Scored>): seq<Scored> {
    if items == [] then [x]
    else if Before(x, items[0]) then [x] + items
    else [items[0]] + Insert(x, items[1..])
  }

  function Sort(items: seq<Scored>): seq<Scored> {
    if items == [] then [] else Insert(items[0], Sort(items[1..]))
  }

  lemma {:induction false} InsertPermutes(x: Scored, items: seq<Scored>)
    ensures multiset(Insert(x, items)) == multiset(items) + multiset{x} && |Insert(x, items)| == |items| + 1
  {
    if items != [] {
      InsertPermutes(x, items[1..]);
      assert items == [items[0]] + items[1..];
    }
  }

  lemma {:induction false} SortPermutes(items: seq<Scored>)
    ensures multiset(Sort(items)) == multiset(items) && |Sort(items)| == |items|
  {
    if items != [] {
      SortPermutes(items[1..]);
      InsertPermutes(items[0], Sort(items[1..]));
      assert items == [items[0]] + items[1..];
    }
  }

  /** Positions are a strict total order's tie-breaker, so no two items tie. */
  ghost predicate DistinctPositions(items: seq<Scored>) {
    forall i, j :: 0 <= i < j < |items| ==> items[i].idx != items[j].idx
  }

  lemma {:induction false} InsertSorted(x: Scored, items: seq<Scored>)
    requires Sorted(items) && forall i :: 0 <= i < |items| ==> items[i].idx != x.idx
    ensures Sorted(Insert(x, items))
  {
    if items != [] && !Before(x, items[0]) {
      InsertSorted(x, items[1..]);
      var rest := Insert(x, items[1..]);
      InsertPermutes(x, items[1..]);
      forall j | 0 <= j < |rest|
        ensures Before(items[0], rest[j])
      {
        assert rest[j] in multiset(rest);
        assert rest[j] == x || rest[j] in multiset(items[1..]);
        assert rest[j] == x || rest[j] in items[1..];
      }
    }
  }

  lemma {:induction false} SortSorted(items: seq<Scored>)
    requires DistinctPositions(items)
    ensures Sorted(Sort(items))
  {
    if items != [] {
      SortSorted(items[1..]);
      SortPermutes(items[1..]);
      var rest := Sort(items[1..]);
      forall i | 0 <= i < |rest|
        ensures rest[i].idx != items[0].idx
      {
        assert rest[i] in multiset(rest);
        assert rest[i] in items[1..];
      }
      InsertSorted(items[0], rest);
    }
  }

  lemma TailMultiset(xs: seq<Scored>)
    requires xs != []
    ensures multiset(xs[1..]) == multiset(xs) - multiset{xs[0]}
  {
    assert xs == [xs[0]] + xs[1..];
  }

  lemma HeadsEqual(xs: seq<Scored>, ys: seq<Scored>)
    requires Sorted(xs) && Sorted(ys) && multiset(xs) == multiset(ys) && xs != [] && ys != []
    ensures xs[0] == ys[0]
  {
    assert xs[0] in multiset(ys) && ys[0] in multiset(xs);
    var i :| 0 <= i < |ys| && ys[i] == xs[0];
    var j :| 0 <= j < |xs| && xs[j] == ys[0];
  }

  /** Only one permutation of the items is in descending, stable order. */
  lemma {:induction false} SortIsUnique(xs: seq<Scored>, ys: seq<Scored>)
    requires Sorted(xs) && Sorted(ys) && multiset(xs) == multiset(ys)
    ensures xs == ys
  {
    assert |multiset(xs)| == |xs| && |multiset(ys)| == |ys|;
    if xs != [] {
      HeadsEqual(xs, ys);
      TailMultiset(xs);
      TailMultiset(ys);
      SortIsUnique(xs[1..], ys[1..]);
      assert xs == [xs[0]] + xs[1..] && ys == [ys[0]] + ys[1..];
    }
  }

  // ---------- ranking a list of names ----------

  function Names(items: seq<Scored>): seq<string> {
    if items == [] then [] else [items[0].name] + Names(items[1..])
  }

  lemma {:induction false} NamesAt(items: seq<Scored>)
    ensures |Names(items)| == |items| && forall i :: 0 <= i < |items| ==> Names(items)[i] == items[i].name
  {
    if items != [] {
      NamesAt(items[1..]);
    }
  }

  /** Names paired with scores and positions. */
  function Items(names: seq<string>, scores: seq<real>): seq<Scored>
    requires |names| == |scores|
  {
    seq(|names|, i requires 0 <= i < |names| => Scored(names[i], scores[i], i))
  }

  function Ranked(names: seq<string>, scores: seq<real>): seq<string>
    requires |names| == |scores|
  {
    Names(Sort(Items(names, scores)))
  }

  /** Where each name of the ranked list came from: position k of the result was from(k). */
  ghost predicate RankedBy(names: seq<string>, scores: seq<real>, out: seq<string>, from: seq<nat>) {
    && |names| == |scores| == |out| == |from|
    && (forall k :: 0 <= k < |from| ==> from[k] < |names| && out[k] == names[from[k]])
    && (forall k, l :: 0 <= k < l < |from| ==> from[k] != from[l])
    && (forall k, l :: 0 <= k < l < |from| ==>
          scores[from[k]] > scores[from[l]] || (scores[from[k]] == scores[from[l]] && from[k] < from[l]))
  }

  /** A sorted list of items holds exactly the items, each at the place its position tells. */
  lemma SortedPlaces(names: seq<string>, scores: seq<real>)
    requires |names| == |scores|
    ensures var items, sorted := Items(names, scores), Sort(Items(names, scores));
            && |sorted| == |items|
            && (forall k :: 0 <= k < |sorted| ==> sorted[k].idx < |names| && sorted[k] == items[sorted[k].idx])
            && (forall i :: 0 <= i < |names| ==> items[i] in sorted)
  {
    var items, sorted := Items(names, scores), Sort(Items(names, scores));
    SortPermutes(items);
    forall k | 0 <= k < |sorted|
      ensures sorted[k].idx < |names| && sorted[k] == items[sorted[k].idx]
    {
      assert sorted[k] in multiset(sorted);
      assert sorted[k] in items;
    }
    forall i | 0 <= i < |names|
      ensures items[i] in sorted
    {
      assert items[i] in multiset(items);
    }
  }

  lemma RankedPermutes(names: seq<string>, scores: seq<real>)
    requires |names| == |scores|
    ensures multiset(Ranked(names, scores)) == multiset(names)
  {
    NamesSort(Items(names, scores));
    NamesAt(Items(names, scores));
    assert Names(Items(names, scores)) == names;
  }

  /** The original positions of the names, in ranked order. */
  function Positions(names: seq<string>, scores: seq<real>): seq<nat>
    requires |names| == |scores|
  {
    var sorted := Sort(Items(names, scores));
    seq(|sorted|, k requires 0 <= k < |sorted| => sorted[k].idx)
  }

  /** The ranked list rearranges the names into descending score, ties in the original order. */
  lemma RankedIsStable(names: seq<string>, scores: seq<real>) returns (from: seq<nat>)
    requires |names| == |scores|
    ensures RankedBy(names, scores, Ranked(names, scores), from) && from == Positions(names, scores)
    ensures multiset(Ranked(names, scores)) == multiset(names)
  {
    var items := Items(names, scores);
    SortedPlaces(names, scores);
    SortSorted(items);
    NamesAt(Sort(items));
    from := Positions(names, scores);
    RankedPermutes(names, scores);
  }

  /** Where two different positions end up, relative to each other. */
  lemma RankedPair(names: seq<string>, scores: seq<real>, from: seq<nat>, i: nat, j: nat) returns (k: nat, l: nat)
    requires |names| == |scores| && i < |names| && j < |names| && i != j
    requires RankedBy(names, scores, Ranked(names, scores), from) && from == Positions(names, scores)
    ensures k < |from| && l < |from| && from[k] == i && from[l] == j
    ensures k < l <==> scores[i] > scores[j] || (scores[i] == scores[j] && i < j)
  {
    SortedPlaces(names, scores);
    var items, sorted := Items(names, scores), Sort(Items(names, scores));
    assert items[i] in sorted && items[j] in sorted;
    k :| 0 <= k < |sorted| && sorted[k] == items[i];
    l :| 0 <= l < |sorted| && sorted[l] == items[j];
  }

  lemma {:induction false} NamesInsert(x: Scored, items: seq<Scored>)
    ensures multiset(Names(Insert(x, items))) == multiset(Names(items)) + multiset{x.name}
  {
    if items == [] {
      assert [x][1..] == [];
    } else if Before(x, items[0]) {
      assert ([x] + items)[1..] == items;
    } else {
      NamesInsert(x, items[1..]);
      assert Insert(x, items)[1..] == Insert(x, items[1..]);
    }
  }

  lemma {:induction false} NamesSort(items: seq<Scored>)
    ensures multiset(Names(Sort(items))) == multiset(Names(items))
  {
    if items != [] {
      NamesSort(items[1..]);
      NamesInsert(items[0], Sort(items[1..]));
    }
  }

  // ---------- scores ----------

  function Base(h: Health): real {
    match h
    case Healthy | Probing => 3000.0
    case Degraded => 1000.0
    case Unhealthy => 0.0
  }

  function Penalty(ewma: Option<real>): real {
    if ewma.Some? then ewma.value else 0.0
  }

  /** The score of an endpoint within its transport. */
  function Score(s: Stats): real {
    Base(s.state) - Penalty(s.ewma)
  }

  predicate Encrypted(path: string) {
    path == "doh" || path == "dot" || path == "relay"
  }

  /** The score of a transport. */
  function TransportScore(path: string, h: Health, ewma: real): real {
    Base(h) + (if Encrypted(path) && h != Unhealthy then 5000.0 else 0.0) - ewma
  }

  /** Healthy and probing endpoints share the best class. */
  function Class(h: Health): nat {
    match h
    case Healthy | Probing => 2
    case Degraded => 1
    case Unhealthy => 0
  }

  /** How many milliseconds a better class is worth. */
  function Gap(better: Health, worse: Health): real {
    if Class(better) == 2 && Class(worse) == 0 then 3000.0 else if Class(better) == 2 then 2000.0 else 1000.0
  }

  /** Which of two endpoints of different classes scores higher, or whether they tie. */
  lemma ClassGap(s: Stats, r: Stats)
    requires Class(s.state) > Class(r.state)
    ensures Score(s) > Score(r) <==> Penalty(s.ewma) - Penalty(r.ewma) < Gap(s.state, r.state)
    ensures Score(s) == Score(r) <==> Penalty(s.ewma) - Penalty(r.ewma) == Gap(s.state, r.state)
  {}

  predicate Below(s: Stats, bound: real) {
    0.0 <= Penalty(s.ewma) < bound
  }

  /** With averages below a second the class decides, and the average only within a class. */
  lemma ClassDecides(s: Stats, r: Stats)
    requires Below(s, 1000.0) && Below(r, 1000.0)
    ensures Class(s.state) > Class(r.state) ==> Score(s) > Score(r)
    ensures Class(s.state) == Class(r.state) ==> (Score(s) > Score(r) <==> Penalty(s.ewma) < Penalty(r.ewma))
  {}

  /** When an encrypted transport that is not down outscores plain: latency may cost it at most the gap. */
  lemma EncryptedGap(path: string, h: Health, ewma: real, plainHealth: Health, plainEwma: real)
    requires path in {"doh", "dot", "relay"} && h != Unhealthy
    ensures TransportScore(path, h, ewma) > TransportScore("plain", plainHealth, plainEwma) <==>
            ewma - plainEwma < 5000.0 + Base(h) - Base(plainHealth)
    ensures TransportScore(path, h, ewma) == TransportScore("plain", plainHealth, plainEwma) <==>
            ewma - plainEwma == 5000.0 + Base(h) - Base(plainHealth)
  {}

  /** With averages below three seconds it always does. */
  lemma EncryptedBeatsPlain(path: string, h: Health, ewma: real, plainHealth: Health, plainEwma: real)
    requires path in {"doh", "dot", "relay"} && h != Unhealthy && 0.0 <= ewma < 3000.0 && 0.0 <= plainEwma
    ensures TransportScore(path, h, ewma) > TransportScore("plain", plainHealth, plainEwma)
  {
    EncryptedGap(path, h, ewma, plainHealth, plainEwma);
  }

  /** Which of two encrypted transports of different classes scores higher, or whether they tie. */
  lemma EncryptedPair(path: string, h: Health, ewma: real, other: string, otherHealth: Health, otherEwma: real)
    requires path in {"doh", "dot", "relay"} && other in {"doh", "dot", "relay"} && Class(h) > Class(otherHealth)
    ensures var worth := Gap(h, otherHealth) + if otherHealth == Unhealthy then 5000.0 else 0.0;
            && (TransportScore(path, h, ewma) > TransportScore(other, otherHealth, otherEwma) <==>
                ewma - otherEwma < worth)
            && (TransportScore(path, h, ewma) == TransportScore(other, otherHealth, otherEwma) <==>
                ewma - otherEwma == worth)
  {}

  /** The same of two other paths, for which not being down is worth nothing more. */
  lemma OrdinaryPair(path: string, h: Health, ewma: real, other: string, otherHealth: Health, otherEwma: real)
    requires path !in {"doh", "dot", "relay"} && other !in {"doh", "dot", "relay"} && Class(h) > Class(otherHealth)
    ensures TransportScore(path, h, ewma) > TransportScore(other, otherHealth, otherEwma) <==>
            ewma - otherEwma < Gap(h, otherHealth)
    ensures TransportScore(path, h, ewma) == TransportScore(other, otherHealth, otherEwma) <==>
            ewma - otherEwma == Gap(h, otherHealth)
  {}

  /** In one class, the averages of two encrypted or of two other paths decide. */
  lemma SameClass(path: string, h: Health, ewma: real, other: string, otherHealth: Health, otherEwma: real)
    requires path in {"doh", "dot", "relay"} <==> other in {"doh", "dot", "relay"}
    requires Class(h) == Class(otherHealth)
    ensures TransportScore(path, h, ewma) >= TransportScore(other, otherHealth, otherEwma) <==> ewma <= otherEwma
  {}
}
