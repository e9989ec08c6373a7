/**
 The background refresh protocol over all interleavings of triggers, completions and flushes.
 A refresh takes the flag of its key when it starts and clears the flag of its key when it ends,
 whoever set it; Flush wipes flags and cooldowns without stopping anything.
*/
module RefreshRuns {
  import opened Wrappers
  import opened RefreshSpec
  import Spec = RefreshSpec

  datatype Start = Start(key: string, time: int, epoch: nat)

  /** book is the cache's own state; the rest is history. */
  datatype State = State(
    book: Book,
    running: map<nat, string>,  // refreshes started and not yet ended
    holder: map<string, nat>,   // who last set the flag of a key
    starts: seq<Start>,
    flushes: nat)

  datatype Step =
    | Trigger(key: string, now: int)
    | Finish(id: nat)
    | Flush

  const INITIAL := State(EMPTY_BOOK, map[], map[], [], 0)

  function Apply(s: State, step: Step): State {
    match step
    case Trigger(k, now) =>
      if !MayStart(s.book, k, now) then s
      else s.(book := Spec.Trigger(s.book, k, now),
              running := s.running[|s.starts| := k],
              holder := s.holder[k := |s.starts|],
              starts := s.starts + [Start(k, now, s.flushes)])
    case Finish(id) =>
      if id !in s.running then s
      else s.(book := Spec.Finish(s.book, s.running[id]), running := s.running - {id})
    case Flush =>
      s.(book := EMPTY_BOOK, flushes := s.flushes + 1)
  }

  function Run(steps: seq<Step>): State {
    if steps == [] then INITIAL else Apply(Run(steps[..|steps| - 1]), steps[|steps| - 1])
  }

  ghost function Runners(s: State, k: string): set<nat> {
    set id | id in s.running && s.running[id] == k
  }

  ghost function Flag(s: State, k: string): nat {
    if k in s.book.inFlight then 1 else 0
  }

  // ---------- the invariant ----------

  ghost predicate FlagsHeld(s: State) {
    forall k :: k in s.book.inFlight ==> k in s.holder && s.holder[k] in s.running && s.running[s.holder[k]] == k
  }

  ghost predicate Numbered(s: State) {
    forall id :: id in s.running ==> id < |s.starts|
  }

  ghost predicate Spaced(s: State) {
    && (forall i :: 0 <= i < |s.starts| ==> s.starts[i].epoch <= s.flushes)
    && (forall i :: 0 <= i < |s.starts| && s.starts[i].epoch == s.flushes
                    ==> s.starts[i].key in s.book.lastTry && s.starts[i].time <= s.book.lastTry[s.starts[i].key])
    && (forall i, j :: 0 <= i < j < |s.starts| && s.starts[i].key == s.starts[j].key
                       && s.starts[i].epoch == s.starts[j].epoch
                       ==> s.starts[j].time - s.starts[i].time >= 5_000_000_000)
  }

  /** What is booked as the last attempt of a key is a start since the last flush. */
  ghost predicate Booked(s: State) {
    forall k :: k in s.book.lastTry ==>
      exists i :: 0 <= i < |s.starts| && s.starts[i] == Start(k, s.book.lastTry[k], s.flushes)
  }

  lemma StepKeeps(s: State, step: Step)
    requires FlagsHeld(s) && Numbered(s) && Spaced(s)
    ensures FlagsHeld(Apply(s, step)) && Numbered(Apply(s, step)) && Spaced(Apply(s, step))
  {}

  /** How a step changes the set of running refreshes of a key. */
  lemma RunnersAfter(s: State, step: Step, k: string)
    requires Numbered(s)
    ensures Runners(Apply(s, step), k) ==
            match step
            case Trigger(q, t) => Runners(s, k) + if MayStart(s.book, q, t) && q == k then {|s.starts|} else {}
            case Finish(id) => Runners(s, k) - {id}
            case Flush => Runners(s, k)
  {}

  lemma StepCounts(s: State, step: Step, k: string)
    requires Numbered(s) && |Runners(s, k)| <= s.flushes + Flag(s, k)
    ensures |Runners(Apply(s, step), k)| <= Apply(s, step).flushes + Flag(Apply(s, step), k)
  {
    RunnersAfter(s, step, k);
    if step.Finish? && step.id in Runners(s, k) {
      assert |Runners(s, k) - {step.id}| == |Runners(s, k)| - 1;
    }
  }

  lemma {:induction false} Invariant(steps: seq<Step>)
    ensures FlagsHeld(Run(steps)) && Numbered(Run(steps)) && Spaced(Run(steps))
    ensures forall k :: |Runners(Run(steps), k)| <= Run(steps).flushes + Flag(Run(steps), k)
  {
    if steps == [] {
      assert forall k :: Runners(INITIAL, k) == {};
    } else {
      var before := steps[..|steps| - 1];
      Invariant(before);
      StepKeeps(Run(before), steps[|steps| - 1]);
      forall k
        ensures |Runners(Run(steps), k)| <= Run(steps).flushes + Flag(Run(steps), k)
      {
        StepCounts(Run(before), steps[|steps| - 1], k);
      }
    }
  }

  // ---------- what it means ----------

  /** At any time a key has at most one running refresh more than there have been flushes. */
  lemma RunningBound(steps: seq<Step>, k: string)
    ensures |Runners(Run(steps), k)| <= Run(steps).flushes + 1
  {
    Invariant(steps);
  }

  /** A set flag always has its own starter still running, and never outlives it. */
  lemma FlagHasStarter(steps: seq<Step>, k: string)
    requires k in Run(steps).book.inFlight
    ensures k in Run(steps).holder && Run(steps).holder[k] in Runners(Run(steps), k)
  {
    Invariant(steps);
  }

  /** Two starts for a key with no flush between them are at least the cooldown of five seconds apart. */
  lemma StartsSpaced(steps: seq<Step>, i: nat, j: nat)
    requires i < j < |Run(steps).starts|
    requires Run(steps).starts[i].key == Run(steps).starts[j].key
    requires Run(steps).starts[i].epoch == Run(steps).starts[j].epoch
    ensures Run(steps).starts[j].time - Run(steps).starts[i].time >= 5_000_000_000
  {
    Invariant(steps);
  }

  lemma {:induction false} LastTryIsStart(steps: seq<Step>)
    ensures Booked(Run(steps))
  {
    if steps != [] {
      var before, step := steps[..|steps| - 1], steps[|steps| - 1];
      LastTryIsStart(before);
      BookedStep(Run(before), step);
    }
  }

  lemma {:induction false} BookedStep(s: State, step: Step)
    requires Booked(s)
    ensures Booked(Apply(s, step))
  {
    var t := Apply(s, step);
    if !step.Flush? {
      forall k | k in t.book.lastTry
        ensures exists i :: 0 <= i < |t.starts| && t.starts[i] == Start(k, t.book.lastTry[k], t.flushes)
      {
        if k in s.book.lastTry && t.book.lastTry[k] == s.book.lastTry[k] {
          var i :| 0 <= i < |s.starts| && s.starts[i] == Start(k, s.book.lastTry[k], s.flushes);
          assert t.starts[i] == s.starts[i];
        } else {
          assert t.starts[|s.starts|] == Start(k, t.book.lastTry[k], t.flushes);
        }
      }
    }
  }

  /**
   When a key whose refreshes have all ended is refreshed again: exactly if each of its starts since the
   last flush lies five seconds back. The one start is then booked and running.
  */
  lemma StartsAgainIff(steps: seq<Step>, k: string, now: int)
    requires Runners(Run(steps), k) == {}
    ensures var s, t := Run(steps), Run(steps + [Step.Trigger(k, now)]);
            if forall i :: 0 <= i < |s.starts| && s.starts[i].key == k && s.starts[i].epoch == s.flushes
                           ==> now - s.starts[i].time >= 5_000_000_000
            then t.starts == s.starts + [Start(k, now, s.flushes)] && Runners(t, k) == {|s.starts|}
            else t == s
  {
    var s := Run(steps);
    Invariant(steps);
    LastTryIsStart(steps);
    assert (steps + [Step.Trigger(k, now)])[..|steps|] == steps;
    RunnersAfter(s, Step.Trigger(k, now), k);
    if k in s.book.inFlight {
      FlagHasStarter(steps, k);
    }
  }

  /** Without a flush, one refresh per key at a time: a start happens only when none is running. */
  lemma SingleFlight(steps: seq<Step>, k: string, now: int)
    requires Run(steps).flushes == 0 && MayStart(Run(steps).book, k, now)
    ensures Runners(Run(steps), k) == {}
  {
    Invariant(steps);
  }

  // ---------- exactly when a key has one refresh at a time ----------

  /** A refresh of k begun before the last flush is still running. */
  ghost predicate Leftover(s: State, k: string) {
    exists id :: id in s.running && s.running[id] == k && id < |s.starts| && s.starts[id].epoch < s.flushes
  }

  /** The step starts a refresh of k beside one left over from before a flush. */
  ghost predicate StartsBeside(s: State, step: Step, k: string) {
    step.Trigger? && step.key == k && MayStart(s.book, k, step.now) && Leftover(s, k)
  }

  ghost predicate OneAtATime(steps: seq<Step>, k: string) {
    forall n :: 0 <= n <= |steps| ==> |Runners(Run(steps[..n]), k)| <= 1
  }

  ghost predicate NeverBeside(steps: seq<Step>, k: string) {
    forall n :: 0 <= n < |steps| ==> !StartsBeside(Run(steps[..n]), steps[n], k)
  }

  /** At most one refresh of k is running, and one begun since the last flush has the flag set. */
  ghost predicate Alone(s: State, k: string) {
    && |Runners(s, k)| <= 1
    && forall id :: id in Runners(s, k) && id < |s.starts| && s.starts[id].epoch == s.flushes ==> k in s.book.inFlight
  }

  lemma AtMostOne(a: set<nat>, x: nat)
    requires x in a && |a| <= 1
    ensures a == {x}
  {
    assert |a - {x}| == |a| - 1;
  }

  /** Where a refresh of k may start and none is left over, none is running. */
  lemma NoneRunning(s: State, k: string, now: int)
    requires FlagsHeld(s) && Numbered(s) && Spaced(s) && Alone(s, k) && MayStart(s.book, k, now) && !Leftover(s, k)
    ensures Runners(s, k) == {}
  {
    assert forall id :: id !in Runners(s, k);
  }

  lemma TriggerAlone(s: State, q: string, now: int, k: string)
    requires FlagsHeld(s) && Numbered(s) && Spaced(s) && Alone(s, k) && MayStart(s.book, q, now)
    requires q == k ==> !Leftover(s, k)
    ensures Alone(Apply(s, Step.Trigger(q, now)), k)
  {
    RunnersAfter(s, Step.Trigger(q, now), k);
    if q == k {
      NoneRunning(s, k, now);
    }
  }

  lemma FinishAlone(s: State, id: nat, k: string)
    requires Numbered(s) && Alone(s, k)
    ensures Alone(Apply(s, Step.Finish(id)), k)
  {
    RunnersAfter(s, Step.Finish(id), k);
    if id in Runners(s, k) {
      AtMostOne(Runners(s, k), id);
    }
  }

  lemma FlushAlone(s: State, k: string)
    requires Numbered(s) && Spaced(s) && Alone(s, k)
    ensures Alone(Apply(s, Step.Flush), k)
  {
    RunnersAfter(s, Step.Flush, k);
  }

  lemma StepAlone(s: State, step: Step, k: string)
    requires FlagsHeld(s) && Numbered(s) && Spaced(s) && Alone(s, k) && !StartsBeside(s, step, k)
    ensures Alone(Apply(s, step), k)
  {
    match step
    case Trigger(q, now) =>
      if MayStart(s.book, q, now) {
        TriggerAlone(s, q, now, k);
      }
    case Finish(id) => FinishAlone(s, id, k);
    case Flush => FlushAlone(s, k);
  }

  lemma {:induction false} NeverBesideIsAlone(steps: seq<Step>, k: string, n: nat)
    requires n <= |steps| && NeverBeside(steps, k)
    ensures Alone(Run(steps[..n]), k)
  {
    if n == 0 {
      assert Runners(INITIAL, k) == {};
    } else {
      NeverBesideIsAlone(steps, k, n - 1);
      Invariant(steps[..n - 1]);
      assert steps[..n][..n - 1] == steps[..n - 1];
      StepAlone(Run(steps[..n - 1]), steps[n - 1], k);
    }
  }

  /** A start beside a leftover makes two. */
  lemma BesideMakesTwo(steps: seq<Step>, k: string, n: nat)
    requires n < |steps| && StartsBeside(Run(steps[..n]), steps[n], k)
    ensures |Runners(Run(steps[..n + 1]), k)| >= 2
  {
    var s := Run(steps[..n]);
    Invariant(steps[..n]);
    assert steps[..n + 1][..n] == steps[..n];
    RunnersAfter(s, steps[n], k);
    var id :| id in s.running && s.running[id] == k && id < |s.starts| && s.starts[id].epoch < s.flushes;
    assert {id, |s.starts|} <= Runners(Apply(s, steps[n]), k) && id != |s.starts|;
    SubsetSize({id, |s.starts|}, Runners(Apply(s, steps[n]), k));
  }

  /**
   Exactly when a run keeps one refresh of a key at a time: when none of its triggers starts a refresh of
   the key while one begun before a flush is still running.
  */
  lemma SingleFlightIff(steps: seq<Step>, k: string)
    ensures OneAtATime(steps, k) <==> NeverBeside(steps, k)
  {
    if NeverBeside(steps, k) {
      forall n | 0 <= n <= |steps|
        ensures |Runners(Run(steps[..n]), k)| <= 1
      {
        NeverBesideIsAlone(steps, k, n);
      }
    } else {
      var n :| 0 <= n < |steps| && StartsBeside(Run(steps[..n]), steps[n], k);
      BesideMakesTwo(steps, k, n);
    }
  }

  function FlushAndTrigger(n: nat, k: string): seq<Step> {
    if n == 0 then [Trigger(k, 0)] else FlushAndTrigger(n - 1, k) + [Flush, Trigger(k, 0)]
  }

  lemma OneMoreFlush(n: nat, k: string)
    requires n > 0
    ensures Run(FlushAndTrigger(n, k)) == Apply(Apply(Run(FlushAndTrigger(n - 1, k)), Flush), Trigger(k, 0))
  {
    var before, steps := FlushAndTrigger(n - 1, k), FlushAndTrigger(n, k);
    assert steps[..|steps| - 1] == before + [Flush];
    assert (before + [Flush])[..|before|] == before;
  }

  /** The bound is met: each flush lets one more refresh of the same key run alongside the others. */
  lemma {:induction false} BoundIsMet(n: nat, k: string)
    ensures Run(FlushAndTrigger(n, k)).flushes == n
    ensures |Runners(Run(FlushAndTrigger(n, k)), k)| == n + 1
  {
    if n == 0 {
      assert [Trigger(k, 0)][..0] == [];
      assert Runners(Run([Trigger(k, 0)]), k) == {0};
    } else {
      BoundIsMet(n - 1, k);
      OneMoreFlush(n, k);
      var s := Run(FlushAndTrigger(n - 1, k));
      Invariant(FlushAndTrigger(n - 1, k));
      FlushLetsIn(s, k);
    }
  }

  lemma FlushLetsIn(s: State, k: string)
    requires Numbered(s)
    ensures |Runners(Apply(Apply(s, Flush), Trigger(k, 0)), k)| == |Runners(s, k)| + 1
  {
    RunnersAfter(s, Flush, k);
    RunnersAfter(Apply(s, Flush), Trigger(k, 0), k);
    assert |s.starts| !in Runners(s, k);
  }
}
