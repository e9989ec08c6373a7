/**
 What a reload of the settings means for what comes after it: the lifetime of the next store
 (StoreAfterReload), and what the next lookup answers and asks for (LookupAfterReload).
*/
module CacheReload {
  import opened Wrappers
  import opened Messages
  import opened CacheSpec
  import CacheRuns
  import Spec = CacheSpec

  /** A setting that a reload changes only if it gives a positive value. */
  function Kept(given: int, was: int): int {
    if given > 0 then given else was
  }

  /**
   A store after a reload expires after the least time to live among its answers, raised to the new MinTTL
   and then cut to the new MaxTTL, or after the new NegativeTTL where there is no answer; of these, what the
   reload gives as zero or less stays as it was.
  */
  lemma {:induction false} StoreAfterReload(s: State, r: Runtime, k: string, answer: seq<RR>, packed: Packed, now: int)
    returns (i: nat)
    requires s.opts.maxEntries > 0
    ensures answer != [] ==> IsLeastTTL(answer, i)
    ensures var low, high := Kept(r.minTTL, s.opts.minTTL), Kept(r.maxTTL, s.opts.maxTTL);
            var least := if answer == [] then 0 else answer[i].ttl * 1_000_000_000;
            var raised := if least < low then low else least;
            var ttl := if answer == [] then Kept(r.negativeTTL, s.opts.negativeTTL)
                       else if high > 0 && raised > high then high else raised;
            var after := Spec.Store(Spec.UpdateRuntime(s, r), k, answer, Some(packed), false, now);
            if ttl <= 0 then after.lines == s.lines
            else Find(after.lines, k).Some? && Find(after.lines, k).value.packed == packed
                 && Find(after.lines, k).value.expireAt == now + ttl
  {
    var o := UpdateOptions(s.opts, r);
    i := ClampBounds(o, answer);
    CacheRuns.FindAfterPut(Spec.UpdateRuntime(s, r), Line(k, packed, now + ClampedTTL(o, answer), 0, false), k);
    if answer != [] {
      LeastIsMinimum(answer, i);
    }
  }

  lemma {:induction false} LeastIsMinimum(answer: seq<RR>, i: nat)
    requires IsLeastTTL(answer, i)
    ensures MinTTL(answer) == Some(answer[i].ttl as int)
  {
    MinTTLIsMinimum(answer);
  }

  /**
   A lookup after a reload serves an expired entry for as long as the new StaleMaxAge says, and prefetches by
   the new prefetch settings. The reload itself drops nothing, and leaves the bound and the refresh function.
  */
  lemma {:induction false} LookupAfterReload(s: State, r: Runtime, k: string, now: int)
    requires Find(s.lines, k).Some? && Find(s.lines, k).value.packed.decoded.Some?
    ensures Spec.UpdateRuntime(s, r).lines == s.lines && Spec.UpdateRuntime(s, r).counters == s.counters
    ensures Spec.UpdateRuntime(s, r).opts.maxEntries == s.opts.maxEntries
    ensures var x, g := Find(s.lines, k).value, Spec.Get(Spec.UpdateRuntime(s, r), k, now);
            var late, sections := now - x.expireAt, x.packed.decoded.value;
            if late <= 0 then
              && g.outcome == Fresh(sections)
              && (g.wants == Some(ForPrefetch) <==>
                  r.prefetch.enabled && s.opts.canRefresh
                  && -late <= r.prefetch.threshold && x.hits + 1 >= r.prefetch.minHits)
              && (g.wants.Some? ==> g.wants == Some(ForPrefetch))
            else if s.opts.canRefresh && late <= r.staleMaxAge then
              g.outcome == Stale(sections) && g.wants == Some(ForStale)
            else
              g.outcome == Miss(Expired) && g.wants == None && Find(g.after.lines, k).None?
  {
    FindWithout(s.lines, k, k);
  }
}
