/**
 The relay's per-key fixed-window rate limiter, and what fixed windows guarantee about sliding ones:
 fewer than twice the limit in any window-long interval (SlidingBound), no refusal for a key that keeps
 to the limit in every such interval (NeverRefused), and no influence of other keys (OthersDoNotMatter).
*/
module RateLimit {
  import opened Wrappers

  /** A bucket's count and the time its window began. */
  datatype Window = Window(count: nat, from: int)

  datatype Request = Request(key: string, time: int)

  // ---------- specification ----------

  function Opened(w: Option<Window>, window: int, now: int): Window {
    if w.None? || now - w.value.from > window then Window(0, now) else w.value
  }

  function Counted(w: Option<Window>, window: int, now: int): Window {
    var o := Opened(w, window, now);
    o.(count := o.count + 1)
  }

  function Lookup(m: map<string, Window>, k: string): Option<Window> {
    if k in m then Some(m[k]) else None
  }

  // ---------- the limiter ----------

  class Bucket {
    var count: nat
    var windowFrom: int

    constructor (now: int)
      ensures count == 0 && windowFrom == now
    {
      count, windowFrom := 0, now;
    }
  }

  class Limiter {
    const limit: int
    const window: int
    var buckets: map<string, Bucket>

    constructor (limit: int, window: int)
      requires limit > 0
      ensures this.limit == limit && this.window == window && Valid() && buckets == map[]
    {
      this.limit, this.window := limit, window;
      buckets := map[];
    }

    /** Different keys count in different buckets. */
    ghost predicate Valid()
      reads this
    {
      && limit > 0
      && forall j, k :: j in buckets && k in buckets && j != k ==> buckets[j] != buckets[k]
    }

    ghost function View(): map<string, Window>
      reads this, buckets.Values
    {
      map k | k in buckets :: Window(buckets[k].count, buckets[k].windowFrom)
    }

    method Allow(key: string, now: int) returns (ok: bool)
      requires Valid()
      modifies this, buckets.Values
      ensures Valid()
      ensures forall k :: k in buckets ==> fresh(buckets[k]) || (k in old(buckets) && buckets[k] == old(buckets[k]))
      ensures View() == old(View())[key := Counted(Lookup(old(View()), key), window, now)]
      ensures ok <==> View()[key].count <= limit
    {
      if key !in buckets || now - buckets[key].windowFrom > window {
        var b := new Bucket(now);
        buckets := buckets[key := b];
      }
      var b := buckets[key];
      b.count := b.count + 1;
      ok := b.count <= limit;
    }
  }

  /** newRateLimiter: a non-positive limit means no limiter, and no limiter refuses nothing. */
  method NewLimiter(limit: int, window: int) returns (l: Limiter?)
    ensures l == null <==> limit <= 0
    ensures l != null ==> fresh(l) && l.Valid() && l.limit == limit && l.window == window && l.View() == map[]
  {
    if limit <= 0 {
      return null;
    }
    l := new Limiter(limit, window);
  }

  // ---------- runs ----------

  /** All windows after the first n requests. */
  function Windows(run: seq<Request>, window: int, n: nat): map<string, Window>
    requires n <= |run|
  {
    if n == 0 then map[]
    else
      var m := Windows(run, window, n - 1);
      m[run[n - 1].key := Counted(Lookup(m, run[n - 1].key), window, run[n - 1].time)]
  }

  predicate Allowed(run: seq<Request>, limit: int, window: int, i: nat)
    requires i < |run|
  {
    Windows(run, window, i + 1)[run[i].key].count <= limit
  }

  ghost predicate Timely(run: seq<Request>) {
    forall i, j :: 0 <= i < j < |run| ==> run[i].time <= run[j].time
  }

  /** How many of the first n requests of k fall in the closed interval. */
  function Made(run: seq<Request>, n: nat, k: string, a: int, b: int): nat
    requires n <= |run|
  {
    if n == 0 then 0
    else Made(run, n - 1, k, a, b) + if run[n - 1].key == k && a <= run[n - 1].time <= b then 1 else 0
  }

  /** How many of those were allowed. */
  function Granted(run: seq<Request>, limit: int, window: int, n: nat, k: string, a: int, b: int): nat
    requires n <= |run|
  {
    if n == 0 then 0
    else Granted(run, limit, window, n - 1, k, a, b)
         + if run[n - 1].key == k && a <= run[n - 1].time <= b && Allowed(run, limit, window, n - 1) then 1 else 0
  }

  function Least(a: int, b: int): int {
    if a < b then a else b
  }

  /** The current window covers the last request of its key, and began no later than now. */
  lemma {:induction false} WindowCovers(run: seq<Request>, window: int, n: nat, k: string)
    requires n <= |run| && window >= 0 && Timely(run) && k in Windows(run, window, n)
    ensures n > 0 && Windows(run, window, n)[k].from <= run[n - 1].time
  {
    if run[n - 1].key != k {
      WindowCovers(run, window, n - 1, k);
    } else if k in Windows(run, window, n - 1) {
      WindowCovers(run, window, n - 1, k);
    }
  }

  lemma {:induction false} NoneGrantedYet(run: seq<Request>, limit: int, window: int, n: nat, k: string, a: int, b: int)
    requires n <= |run| && Timely(run) && (n > 0 ==> run[n - 1].time < a)
    ensures Granted(run, limit, window, n, k, a, b) == 0
  {
    if n > 0 {
      NoneGrantedYet(run, limit, window, n - 1, k, a, b);
    }
  }

  /**
   Grants inside [a, a + window] by where the current window began: before the interval (its first
   request is then outside), inside it, or after it. Only two windows can meet the interval.
  */
  lemma {:induction false} GrantedByWindow(run: seq<Request>, limit: int, window: int, n: nat, k: string, a: int)
    requires n <= |run| && limit > 0 && window >= 0 && Timely(run)
    ensures var g, w := Granted(run, limit, window, n, k, a, a + window), Lookup(Windows(run, window, n), k);
            match w
            case None => g == 0
            case Some(c) =>
              && c.count > 0
              && if c.from < a then g <= Least(c.count, limit) - 1
                 else if c.from <= a + window then g <= limit - 1 + Least(c.count, limit)
                 else g <= 2 * limit - 1
  {
    if n > 0 {
      GrantedByWindow(run, limit, window, n - 1, k, a);
      if k in Windows(run, window, n - 1) {
        WindowCovers(run, window, n - 1, k);
      }
      if run[n - 1].time < a {
        NoneGrantedYet(run, limit, window, n, k, a, a + window);
      }
    }
  }

  /**
   Any closed interval as long as the window contains fewer than twice the limit of allowed requests:
   when two windows meet it, the request that opened the first one lies before it.
  */
  lemma SlidingBound(run: seq<Request>, limit: int, window: int, k: string, a: int)
    requires limit > 0 && window >= 0 && Timely(run)
    ensures Granted(run, limit, window, |run|, k, a, a + window) <= 2 * limit - 1
  {
    GrantedByWindow(run, limit, window, |run|, k, a);
  }

  /** One request, the rest of the limit at the end of its window, and a full limit right after. */
  function WorstCase(k: string, limit: nat, window: nat): seq<Request> {
    seq(2 * limit, i => Request(k, if i == 0 then 0 else if i < limit then window else window + 1))
  }

  lemma {:induction false} WorstCaseRun(k: string, limit: nat, window: nat, n: nat)
    requires limit > 0 && window > 0 && 0 < n <= 2 * limit
    ensures var run := WorstCase(k, limit, window);
            && Lookup(Windows(run, window, n), k)
               == Some(if n <= limit then Window(n, 0) else Window(n - limit, window + 1))
            && Granted(run, limit, window, n, k, 1, window + 1) == n - 1
  {
    if n > 1 {
      WorstCaseRun(k, limit, window, n - 1);
    }
  }

  /** The bound cannot be improved. */
  lemma SlidingBoundIsMet(k: string, limit: nat, window: nat)
    requires limit > 0 && window > 0
    ensures Timely(WorstCase(k, limit, window))
    ensures Granted(WorstCase(k, limit, window), limit, window, 2 * limit, k, 1, window + 1) == 2 * limit - 1
  {
    WorstCaseRun(k, limit, window, 2 * limit);
  }

  /** The count of the current window is the number of requests made since it began. */
  lemma {:induction false} CountIsMade(run: seq<Request>, window: int, n: nat, k: string)
    requires n <= |run| && window >= 0 && Timely(run) && k in Windows(run, window, n)
    ensures var w := Windows(run, window, n)[k]; w.count == Made(run, n, k, w.from, w.from + window)
  {
    var w := Windows(run, window, n)[k];
    if k in Windows(run, window, n - 1) {
      CountIsMade(run, window, n - 1, k);
      WindowCovers(run, window, n - 1, k);
      if run[n - 1].key == k && run[n - 1].time - Windows(run, window, n - 1)[k].from > window {
        LastInWindow(run, window, n - 1, k);
        MadeBefore(run, window, n - 1, k, w.from);
      }
    } else {
      NoneMade(run, window, n - 1, k, w.from, w.from + window);
    }
  }

  /** Requests of k so far lie within the current window or before it. */
  lemma {:induction false} LastInWindow(run: seq<Request>, window: int, n: nat, k: string)
    requires n <= |run| && window >= 0 && Timely(run) && k in Windows(run, window, n)
    ensures forall i :: 0 <= i < n && run[i].key == k ==> run[i].time <= Windows(run, window, n)[k].from + window
  {
    if k in Windows(run, window, n - 1) {
      LastInWindow(run, window, n - 1, k);
    } else {
      NeverSeen(run, window, n - 1, k);
    }
  }

  lemma {:induction false} NeverSeen(run: seq<Request>, window: int, n: nat, k: string)
    requires n <= |run|
    ensures k !in Windows(run, window, n) <==> forall i :: 0 <= i < n ==> run[i].key != k
  {
    if n > 0 {
      NeverSeen(run, window, n - 1, k);
    }
  }

  lemma {:induction false} NoneMade(run: seq<Request>, window: int, n: nat, k: string, a: int, b: int)
    requires n <= |run| && k !in Windows(run, window, n)
    ensures Made(run, n, k, a, b) == 0
  {
    if n > 0 {
      NoneMade(run, window, n - 1, k, a, b);
    }
  }

  lemma {:induction false} MadeBefore(run: seq<Request>, window: int, n: nat, k: string, a: int)
    requires n <= |run| && forall i :: 0 <= i < n && run[i].key == k ==> run[i].time < a
    ensures Made(run, n, k, a, a + window) == 0
  {
    if n > 0 {
      MadeBefore(run, window, n - 1, k, a);
    }
  }

  /** A request is refused exactly when it exceeds the limit within its own window. */
  lemma RefusedIff(run: seq<Request>, limit: int, window: int, i: nat)
    requires i < |run| && window >= 0 && Timely(run)
    ensures var from := Windows(run, window, i + 1)[run[i].key].from;
            && run[i].time - window <= from <= run[i].time
            && (Allowed(run, limit, window, i) <==> Made(run, i + 1, run[i].key, from, from + window) <= limit)
  {
    CountIsMade(run, window, i + 1, run[i].key);
    WindowCovers(run, window, i + 1, run[i].key);
  }

  lemma {:induction false} MadeGrows(run: seq<Request>, n: nat, m: nat, k: string, a: int, b: int)
    requires n <= m <= |run|
    ensures Made(run, n, k, a, b) <= Made(run, m, k, a, b)
  {
    if n < m {
      MadeGrows(run, n, m - 1, k, a, b);
    }
  }

  function MadeWithin(run: seq<Request>, k: string, a: int, window: int): nat {
    Made(run, |run|, k, a, a + window)
  }

  /** A key that makes at most limit requests in every window-long interval is never refused. */
  lemma NeverRefused(run: seq<Request>, limit: int, window: int, k: string)
    requires window >= 0 && Timely(run)
    requires forall a :: MadeWithin(run, k, a, window) <= limit
    ensures forall i :: 0 <= i < |run| && run[i].key == k ==> Allowed(run, limit, window, i)
  {
    forall i | 0 <= i < |run| && run[i].key == k
      ensures Allowed(run, limit, window, i)
    {
      RefusedIff(run, limit, window, i);
      var from := Windows(run, window, i + 1)[k].from;
      MadeGrows(run, i + 1, |run|, k, from, from + window);
      assert MadeWithin(run, k, from, window) <= limit;
    }
  }

  /** The requests of one key, in order. */
  function Only(run: seq<Request>, n: nat, k: string): seq<Request>
    requires n <= |run|
  {
    if n == 0 then []
    else if run[n - 1].key == k then Only(run, n - 1, k) + [run[n - 1]]
    else Only(run, n - 1, k)
  }

  /** What a key is told depends on its own requests alone. */
  lemma {:induction false} OthersDoNotMatter(run: seq<Request>, window: int, n: nat, k: string)
    requires n <= |run|
    ensures Lookup(Windows(run, window, n), k) == Lookup(Windows(Only(run, n, k), window, |Only(run, n, k)|), k)
  {
    if n > 0 {
      OthersDoNotMatter(run, window, n - 1, k);
      if run[n - 1].key == k {
        SamePrefix(Only(run, n - 1, k), Only(run, n, k), window, |Only(run, n - 1, k)|);
      }
    }
  }

  lemma {:induction false} SamePrefix(short: seq<Request>, long: seq<Request>, window: int, n: nat)
    requires n <= |short| <= |long| && forall i :: 0 <= i < n ==> short[i] == long[i]
    ensures Windows(short, window, n) == Windows(long, window, n)
  {
    if n > 0 {
      SamePrefix(short, long, window, n - 1);
    }
  }
}
