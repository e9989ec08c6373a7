/**
 The health of one upstream endpoint: a four-state machine driven by real query outcomes, with a
 lazy, time-driven promotion from Unhealthy to Probing, streak counters and a latency average.
 Times are in nanoseconds, latencies in milliseconds as exact reals.
*/
module HealthSpec {
  import opened Wrappers

  datatype Health = Healthy | Degraded | Unhealthy | Probing

  const DEGRADE_THRESHOLD := 2
  const UNHEALTHY_THRESHOLD := 5
  const RECOVER_THRESHOLD := 3
  const COOLDOWN := 30_000_000_000
  const MILLISECOND := 1_000_000

  datatype Stats = Stats(
    state: Health,
    ewma: Option<real>,
    requests: nat, successes: nat, failures: nat,
    consecutiveFailures: nat, consecutiveSuccesses: nat,
    lastSuccess: Option<int>, lastFailure: Option<int>, unhealthySince: Option<int>)

  /** An endpoint nothing is known about. */
  const FRESH := Stats(Healthy, None, 0, 0, 0, 0, 0, None, None, None)

  /** refreshState: an unhealthy endpoint whose cooldown is over becomes probing. */
  function Refresh(s: Stats, now: int): Stats {
    if s.state == Unhealthy && s.unhealthySince.Some? && now - s.unhealthySince.value >= COOLDOWN
    then s.(state := Probing)
    else s
  }

  function OnSuccess(s: Stats): Stats {
    match s.state
    case Probing => s.(state := Healthy, consecutiveSuccesses := 0)
    case Degraded | Unhealthy =>
      if s.consecutiveSuccesses >= RECOVER_THRESHOLD then s.(state := Healthy, consecutiveSuccesses := 0) else s
    case Healthy => s
  }

  function OnFailure(s: Stats, now: int): Stats {
    match s.state
    case Healthy => if s.consecutiveFailures >= DEGRADE_THRESHOLD then s.(state := Degraded) else s
    case Degraded =>
      if s.consecutiveFailures >= UNHEALTHY_THRESHOLD then s.(state := Unhealthy, unhealthySince := Some(now)) else s
    case Probing => s.(state := Unhealthy, unhealthySince := Some(now))
    case Unhealthy => s.(unhealthySince := Some(now))
  }

  /** Whole milliseconds of a duration, rounded toward zero. */
  function Milliseconds(latency: int): int {
    if latency >= 0 then latency / MILLISECOND else -((-latency) / MILLISECOND)
  }

  /** The moving average: a fifth of the new observation, four fifths of the old average. */
  function Average(previous: Option<real>, ms: real): real {
    match previous
    case None => ms
    case Some(e) => 0.2 * ms + 0.8 * e
  }

  function Success(s: Stats, latency: int, now: int): Stats {
    var r := Refresh(s, now);
    OnSuccess(r.(requests := r.requests + 1, successes := r.successes + 1,
                 consecutiveFailures := 0, consecutiveSuccesses := r.consecutiveSuccesses + 1,
                 lastSuccess := Some(now),
                 ewma := Some(Average(r.ewma, Milliseconds(latency) as real))))
  }

  function Failure(s: Stats, now: int): Stats {
    var r := Refresh(s, now);
    OnFailure(r.(requests := r.requests + 1, failures := r.failures + 1,
                 consecutiveSuccesses := 0, consecutiveFailures := r.consecutiveFailures + 1,
                 lastFailure := Some(now)), now)
  }

  // ---------- lazy promotion is invisible ----------

  lemma RefreshTwice(s: Stats, t: int, t': int)
    requires t <= t'
    ensures Refresh(Refresh(s, t), t') == Refresh(s, t')
  {}
}
