/**
 Histories of one endpoint: timed successes and failures, with any number of reads (State, Order,
 Snapshot) in between. Main results: reads never change what a later read or record sees
 (ReadsAreInvisible); state and counters are what the recent history says (History, Transition);
 the latency average is a weighted mean of the observations (AverageIsWeighted, Contraction).
*/
module HealthRuns {
  import opened Wrappers
  import opened HealthSpec

  datatype What = Succeeded(latency: int) | FailedOnce | Read

  datatype Event = Event(what: What, time: int)

  function Apply(s: Stats, e: Event): Stats {
    match e.what
    case Succeeded(latency) => Success(s, latency, e.time)
    case FailedOnce => Failure(s, e.time)
    case Read => Refresh(s, e.time)
  }

  function After(run: seq<Event>): Stats {
    if run == [] then FRESH else Apply(After(run[..|run| - 1]), run[|run| - 1])
  }

  ghost predicate Timely(run: seq<Event>) {
    forall i, j :: 0 <= i < j < |run| ==> run[i].time <= run[j].time
  }

  function Records(run: seq<Event>): seq<Event> {
    if run == [] then []
    else
      var before := Records(run[..|run| - 1]);
      if run[|run| - 1].what.Read? then before else before + [run[|run| - 1]]
  }

  // ---------- reads are invisible ----------

  /** Without its reads, a run looks the same to every read or record from its last moment on. */
  lemma {:induction false} ReadsAreInvisible(run: seq<Event>, t: int)
    requires Timely(run) && (run != [] ==> run[|run| - 1].time <= t)
    ensures Refresh(After(run), t) == Refresh(After(Records(run)), t)
  {
    if run != [] {
      var before, e := run[..|run| - 1], run[|run| - 1];
      ReadsAreInvisible(before, e.time);
      var s, r := After(before), After(Records(before));
      match e.what {
        case Read =>
          RefreshTwice(s, e.time, t);
          RefreshTwice(r, e.time, t);
        case Succeeded(latency) =>
          assert (Records(before) + [e])[..|Records(before)|] == Records(before);
        case FailedOnce =>
          assert (Records(before) + [e])[..|Records(before)|] == Records(before);
      }
    }
  }

  // ---------- what the state says about the history ----------

  /** The length of the run of failures, respectively successes, at the end of the records. */
  function FailureStreak(run: seq<Event>): nat {
    if run == [] then 0
    else match run[|run| - 1].what
      case Succeeded(_) => 0
      case FailedOnce => FailureStreak(run[..|run| - 1]) + 1
      case Read => FailureStreak(run[..|run| - 1])
  }

  function SuccessStreak(run: seq<Event>): nat {
    if run == [] then 0
    else match run[|run| - 1].what
      case Succeeded(_) => SuccessStreak(run[..|run| - 1]) + 1
      case FailedOnce => 0
      case Read => SuccessStreak(run[..|run| - 1])
  }

  function LastFailure(run: seq<Event>): Option<int> {
    if run == [] then None
    else if run[|run| - 1].what.FailedOnce? then Some(run[|run| - 1].time)
    else LastFailure(run[..|run| - 1])
  }

  function LastSuccess(run: seq<Event>): Option<int> {
    if run == [] then None
    else if run[|run| - 1].what.Succeeded? then Some(run[|run| - 1].time)
    else LastSuccess(run[..|run| - 1])
  }

  function Count(run: seq<Event>, successes: bool): nat {
    if run == [] then 0
    else Count(run[..|run| - 1], successes)
         + if (if successes then run[|run| - 1].what.Succeeded? else run[|run| - 1].what.FailedOnce?) then 1 else 0
  }

  /** What always holds of the stats after a run, as seen at its last moment. */
  ghost predicate Consistent(s: Stats, run: seq<Event>) {
    && s.consecutiveFailures == FailureStreak(run)
    && s.consecutiveSuccesses <= SuccessStreak(run)
    && (s.state != Healthy ==> s.consecutiveSuccesses == SuccessStreak(run))
    && s.successes == Count(run, true) && s.failures == Count(run, false)
    && s.requests == s.successes + s.failures
    && s.lastFailure == LastFailure(run) && s.lastSuccess == LastSuccess(run)
    && (s.ewma.Some? <==> s.successes > 0)
    && match s.state
       case Healthy => FailureStreak(run) <= 1
       case Degraded => FailureStreak(run) <= 4 && SuccessStreak(run) <= 2 && LastFailure(run).Some?
       case Unhealthy => SuccessStreak(run) <= 2 && LastFailure(run).Some? && s.unhealthySince == LastFailure(run)
       case Probing =>
         && SuccessStreak(run) <= 2 && LastFailure(run).Some? && s.unhealthySince == LastFailure(run)
         && run != [] && run[|run| - 1].time - LastFailure(run).value >= 30_000_000_000
  }

  /**
   consecutiveFailures is the exact failure streak and requests are successes plus failures; a
   healthy endpoint has failed at most once in a row, a degraded one at most four times and succeeded
   at most twice, and a probing one has not failed for the length of the cooldown.
  */
  lemma {:induction false} History(run: seq<Event>)
    requires Timely(run)
    ensures Consistent(After(run), run)
  {
    if run != [] {
      History(run[..|run| - 1]);
    }
  }

  /** The last failure lies thirty seconds back at time t. */
  predicate CooledDown(run: seq<Event>, t: int) {
    LastFailure(run).Some? && t - LastFailure(run).value >= 30_000_000_000
  }

  /** The state a read at time t would report. */
  function StateAt(run: seq<Event>, t: int): Health {
    Refresh(After(run), t).state
  }

  /**
   Every record's transition in terms of the history alone: degraded at the second failure in a row,
   unhealthy at the fifth or at a failed probe, healthy at the third success in a row or at a
   successful probe, and no other change. A recovery starts the count of successes anew.
  */
  lemma Transition(run: seq<Event>, e: Event)
    requires Timely(run + [e]) && !e.what.Read?
    ensures var was, now := StateAt(run, e.time), After(run + [e]).state;
            var failed, ok := FailureStreak(run + [e]), SuccessStreak(run + [e]);
            if e.what.FailedOnce? then
              now == match was
                case Healthy => if failed == 2 then Degraded else Healthy
                case Degraded => if failed == 5 then Unhealthy else Degraded
                case Unhealthy => Unhealthy
                case Probing => Unhealthy
            else
              now == match was
                case Healthy => Healthy
                case Degraded => if ok == 3 then Healthy else Degraded
                case Unhealthy => if ok == 3 then Healthy else Unhealthy
                case Probing => Healthy
    ensures var was, after := StateAt(run, e.time), After(run + [e]);
            was != Healthy && after.state == Healthy ==> after.consecutiveSuccesses == 0
  {
    assert (run + [e])[..|run|] == run;
    assert Timely(run) by {
      assert forall i :: 0 <= i < |run| ==> run[i] == (run + [e])[i];
    }
    History(run);
  }

  /** A read reports probing exactly when the endpoint is down and has not failed for thirty seconds. */
  lemma ProbingIff(run: seq<Event>, t: int)
    requires Timely(run) && (run != [] ==> run[|run| - 1].time <= t)
    ensures StateAt(run, t) == Probing <==>
            (After(run).state == Unhealthy || After(run).state == Probing) && CooledDown(run, t)
  {
    History(run);
  }

  // ---------- the latency average ----------

  /** The average after a sequence of observations. */
  function Ewma(xs: seq<real>): real
    requires xs != []
  {
    if |xs| == 1 then xs[0] else 0.2 * xs[|xs| - 1] + 0.8 * Ewma(xs[..|xs| - 1])
  }

  /** The observed latencies in whole milliseconds, a millionth of the recorded nanoseconds cut toward zero. */
  function Observed(run: seq<Event>): seq<real> {
    if run == [] then []
    else
      var before := Observed(run[..|run| - 1]);
      match run[|run| - 1].what
      case Succeeded(latency) =>
        before + [(if latency >= 0 then latency / 1_000_000 else -(-latency / 1_000_000)) as real]
      case _ => before
  }

  lemma {:induction false} AverageIsEwma(run: seq<Event>)
    ensures After(run).ewma == if Observed(run) == [] then None else Some(Ewma(Observed(run)))
  {
    if run != [] {
      var before := run[..|run| - 1];
      AverageIsEwma(before);
      match run[|run| - 1].what
      case Succeeded(latency) =>
        assert Observed(run)[..|Observed(run)| - 1] == Observed(before);
      case _ =>
    }
  }

  /** The average never leaves the range of the observations. */
  lemma {:induction false} EwmaInRange(xs: seq<real>, low: real, high: real)
    requires xs != [] && forall i :: 0 <= i < |xs| ==> low <= xs[i] <= high
    ensures low <= Ewma(xs) <= high
  {
    if |xs| > 1 {
      EwmaInRange(xs[..|xs| - 1], low, high);
    }
  }

  function Scale(c: real, ws: seq<real>): seq<real> {
    if ws == [] then [] else [c * ws[0]] + Scale(c, ws[1..])
  }

  function Sum(ws: seq<real>): real {
    if ws == [] then 0.0 else ws[0] + Sum(ws[1..])
  }

  function Dot(ws: seq<real>, xs: seq<real>): real
    requires |ws| == |xs|
  {
    if ws == [] then 0.0 else ws[0] * xs[0] + Dot(ws[1..], xs[1..])
  }

  /** The weight of each of n observations: 0.2 * 0.8^age, and 0.8^age for the oldest. */
  function Weights(n: nat): (ws: seq<real>)
    ensures |ws| == n
  {
    if n == 0 then [] else if n == 1 then [1.0]
    else ScaleLength(0.8, Weights(n - 1)); Scale(0.8, Weights(n - 1)) + [0.2]
  }

  lemma {:induction false} ScaleLength(c: real, ws: seq<real>)
    ensures |Scale(c, ws)| == |ws|
  {
    if ws != [] {
      ScaleLength(c, ws[1..]);
    }
  }

  lemma {:induction false} SumScale(c: real, ws: seq<real>)
    ensures Sum(Scale(c, ws)) == c * Sum(ws)
  {
    if ws != [] {
      SumScale(c, ws[1..]);
      assert Scale(c, ws)[1..] == Scale(c, ws[1..]);
    }
  }

  lemma {:induction false} SumMore(ws: seq<real>, w: real)
    ensures Sum(ws + [w]) == Sum(ws) + w
  {
    if ws != [] {
      SumMore(ws[1..], w);
      assert (ws + [w])[1..] == ws[1..] + [w];
    } else {
      assert ([] + [w])[1..] == [];
    }
  }

  lemma {:induction false} DotScale(c: real, ws: seq<real>, xs: seq<real>)
    requires |ws| == |xs|
    ensures |Scale(c, ws)| == |xs| && Dot(Scale(c, ws), xs) == c * Dot(ws, xs)
  {
    ScaleLength(c, ws);
    if ws != [] {
      DotScale(c, ws[1..], xs[1..]);
      assert Scale(c, ws)[1..] == Scale(c, ws[1..]);
      assert (c * ws[0]) * xs[0] == c * (ws[0] * xs[0]);
    }
  }

  lemma {:induction false} DotMore(ws: seq<real>, w: real, xs: seq<real>, x: real)
    requires |ws| == |xs|
    ensures Dot(ws + [w], xs + [x]) == Dot(ws, xs) + w * x
  {
    if ws != [] {
      DotMore(ws[1..], w, xs[1..], x);
      assert (ws + [w])[1..] == ws[1..] + [w] && (xs + [x])[1..] == xs[1..] + [x];
    } else {
      assert ([] + [w])[1..] == [] && ([] + [x])[1..] == [];
    }
  }

  /** The weights are positive and add up to one. */
  lemma {:induction false} WeightsAddUp(n: nat)
    requires n > 0
    ensures Sum(Weights(n)) == 1.0
    ensures forall i :: 0 <= i < n ==> Weights(n)[i] > 0.0
  {
    if n > 1 {
      WeightsAddUp(n - 1);
      SumScale(0.8, Weights(n - 1));
      SumMore(Scale(0.8, Weights(n - 1)), 0.2);
      ScaleAt(0.8, Weights(n - 1));
    }
  }

  lemma {:induction false} ScaleAt(c: real, ws: seq<real>)
    ensures |Scale(c, ws)| == |ws| && forall i :: 0 <= i < |ws| ==> Scale(c, ws)[i] == c * ws[i]
  {
    if ws != [] {
      ScaleAt(c, ws[1..]);
    }
  }

  /** The average is the weighted mean of all observations. */
  lemma {:induction false} AverageIsWeighted(xs: seq<real>)
    requires xs != []
    ensures Ewma(xs) == Dot(Weights(|xs|), xs)
  {
    if |xs| > 1 {
      var before, x := xs[..|xs| - 1], xs[|xs| - 1];
      AverageIsWeighted(before);
      DotScale(0.8, Weights(|before|), before);
      DotMore(Scale(0.8, Weights(|before|)), 0.2, before, x);
      assert before + [x] == xs;
    }
  }

  function Power(b: real, n: nat): real {
    if n == 0 then 1.0 else b * Power(b, n - 1)
  }

  function Repeat(v: real, k: nat): seq<real> {
    if k == 0 then [] else Repeat(v, k - 1) + [v]
  }

  function Product(a: real, b: real): real {
    a * b
  }

  lemma ShrinkOnce(e: real, v: real, p: real, d: real)
    requires e - v == Product(p, d)
    ensures 0.2 * v + 0.8 * e - v == Product(0.8 * p, d)
  {
    assert (0.8 * p) * d == 0.8 * (p * d);
  }

  lemma OneMoreSample(xs: seq<real>, v: real)
    requires xs != []
    ensures Ewma(xs + [v]) == 0.2 * v + 0.8 * Ewma(xs)
  {
    assert (xs + [v])[..|xs|] == xs;
  }

  /** k further observations of v shrink the distance from v by exactly 0.8 to the k. */
  lemma {:induction false} Contraction(xs: seq<real>, v: real, k: nat)
    requires xs != []
    ensures Ewma(xs + Repeat(v, k)) - v == Product(Power(0.8, k), Ewma(xs) - v)
  {
    if k == 0 {
      assert xs + [] == xs;
    } else {
      Contraction(xs, v, k - 1);
      var before := xs + Repeat(v, k - 1);
      assert xs + Repeat(v, k) == before + [v];
      OneMoreSample(before, v);
      ShrinkOnce(Ewma(before), v, Power(0.8, k - 1), Ewma(xs) - v);
    }
  }

  /** If every recorded latency is at least 0 and below the bound, so is the average. */
  lemma {:induction false} LatencyBound(run: seq<Event>, bound: real)
    requires forall i :: 0 <= i < |run| && run[i].what.Succeeded?
                         ==> 0.0 <= Milliseconds(run[i].what.latency) as real < bound
    ensures After(run).ewma.Some? ==> 0.0 <= After(run).ewma.value < bound
  {
    if run != [] {
      LatencyBound(run[..|run| - 1], bound);
    }
  }
}
