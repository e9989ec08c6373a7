/**
 Request coalescing, over every interleaving of any number of callers. The resolver's
 attemptUpstream and the relay's resolveCoalesced run the same protocol under one mutex, one map and
 one wait group per call; they differ in how they treat an upstream that returns neither an answer
 nor an error, and in whether a call without a client is counted. A call is named by the caller
 that created it.
*/
module Coalescing {
  import opened Wrappers
  import opened Messages

  type Caller = nat

  datatype Site = Resolver | Relay

  /** What one upstream attempt comes to. */
  datatype Upstream =
    | Replied(sections: Sections)
    | Failed(error: string)
    | Nothing                     // no answer and no error
    | NoClient                    // no upstream configured: an error, found before any exchange

  datatype Result =
    | Answer(msg: Msg)
    | Error(error: string)
    | Crash                       // re-stamping an absent answer

  datatype Phase =
    | Idle
    | Running                     // leader, inside the upstream call
    | Finishing                   // leader, outcome written, map entry not yet deleted
    | Signalling                  // leader, map entry deleted, waiters not yet woken
    | Waiting(on: Caller)
    | Returned(from: Caller, result: Result)

  datatype Call = Call(key: string, outcome: Option<Upstream>, done: bool)

  datatype Ask = Ask(key: string, query: Query)

  /** The requests that will be made, each by its own caller; and which code they run through. */
  datatype Config = Config(site: Site, asks: map<Caller, Ask>)

  datatype State = State(
    phase: map<Caller, Phase>,
    inflight: map<string, Caller>,
    calls: map<Caller, Call>,
    called: nat,                  // the "real calls" counter
    coalesced: nat)               // the "piggybacked" counter

  function ErrorText(u: Upstream): string {
    if u.Failed? then u.error else if u.NoClient? then "no upstream configured" else "returned no response and no error"
  }

  /** What a caller gets from the outcome of the call it led or joined. */
  function Deliver(site: Site, u: Upstream, q: Query): Result {
    match u
    case Replied(s) => Answer(Restamp(s, q))
    case Nothing => if site.Relay? then Crash else Error(ErrorText(u))
    case _ => Error(ErrorText(u))
  }

  /** The resolver counts a call only when the strategy has a client; the relay always counts. */
  predicate Counts(site: Site, u: Upstream) {
    site.Relay? || !u.NoClient?
  }

  ghost predicate Init(c: Config, s: State) {
    && s.phase.Keys == c.asks.Keys
    && (forall p :: p in s.phase ==> s.phase[p] == Idle)
    && s.inflight == map[] && s.calls == map[]
    && s.called == 0 && s.coalesced == 0
  }

  // ---------- the steps of one caller ----------

  /** Under the mutex: join the call in the map, or create one and lead it. */
  ghost predicate Arrive(c: Config, s: State, t: State, p: Caller) {
    && p in c.asks && p in s.phase && s.phase[p] == Idle
    && var k := c.asks[p].key;
       if k in s.inflight then t == s.(phase := s.phase[p := Waiting(s.inflight[k])])
       else t == s.(phase := s.phase[p := Running],
                    inflight := s.inflight[k := p],
                    calls := s.calls[p := Call(k, None, false)])
  }

  /** The upstream call returns and its outcome is written to the call record. */
  ghost predicate Complete(c: Config, s: State, t: State, p: Caller, u: Upstream) {
    && p in s.phase && s.phase[p] == Running && p in s.calls
    && t == s.(phase := s.phase[p := Finishing],
               calls := s.calls[p := s.calls[p].(outcome := Some(u))],
               called := s.called + if Counts(c.site, u) then 1 else 0)
  }

  /** Under the mutex: the leader deletes the map entry of its key. */
  ghost predicate Remove(c: Config, s: State, t: State, p: Caller) {
    && p in c.asks && p in s.phase && s.phase[p] == Finishing
    && t == s.(phase := s.phase[p := Signalling], inflight := s.inflight - {c.asks[p].key})
  }

  /** The leader marks the call done and returns its own reply. */
  ghost predicate Signal(c: Config, s: State, t: State, p: Caller) {
    && p in c.asks && p in s.phase && s.phase[p] == Signalling && p in s.calls && s.calls[p].outcome.Some?
    && t == s.(phase := s.phase[p := Returned(p, Deliver(c.site, s.calls[p].outcome.value, c.asks[p].query))],
               calls := s.calls[p := s.calls[p].(done := true)])
  }

  /** A waiter wakes once the call is done, counts itself and returns its reply. */
  ghost predicate Wake(c: Config, s: State, t: State, p: Caller) {
    && p in c.asks && p in s.phase && s.phase[p].Waiting?
    && var l := s.phase[p].on;
       && l in s.calls && s.calls[l].done && s.calls[l].outcome.Some?
       && t == s.(phase := s.phase[p := Returned(l, Deliver(c.site, s.calls[l].outcome.value, c.asks[p].query))],
                  coalesced := s.coalesced + 1)
  }

  ghost predicate StepBy(c: Config, s: State, t: State, p: Caller, u: Upstream) {
    Arrive(c, s, t, p) || Complete(c, s, t, p, u) || Remove(c, s, t, p) || Signal(c, s, t, p) || Wake(c, s, t, p)
  }

  ghost predicate Step(c: Config, s: State, t: State) {
    exists p, u :: StepBy(c, s, t, p, u)
  }

  /** A run: states linked by steps of any caller. */
  ghost predicate IsRun(c: Config, run: seq<State>) {
    && run != [] && Init(c, run[0])
    && forall i :: 0 <= i < |run| - 1 ==> Step(c, run[i], run[i + 1])
  }

  // ---------- the invariant ----------

  predicate Leading(ph: Phase) {
    ph.Running? || ph.Finishing?
  }

  /** A leader's own call record, and its place in the map, follow its phase. */
  ghost predicate LeaderOk(c: Config, s: State, p: Caller)
    requires p in s.phase && p in c.asks
  {
    var k := c.asks[p].key;
    match s.phase[p]
    case Running => p in s.calls && s.calls[p] == Call(k, None, false) && k in s.inflight && s.inflight[k] == p
    case Finishing => p in s.calls && s.calls[p].key == k && s.calls[p].outcome.Some? && !s.calls[p].done
                      && k in s.inflight && s.inflight[k] == p
    case Signalling => p in s.calls && s.calls[p].key == k && s.calls[p].outcome.Some? && !s.calls[p].done
    case Returned(l, r) => l in s.calls && s.calls[l].key == k && s.calls[l].done && s.calls[l].outcome.Some?
                           && r == Deliver(c.site, s.calls[l].outcome.value, c.asks[p].query)
    case Waiting(l) => l in s.calls && s.calls[l].key == k && l != p && p !in s.calls
    case Idle => p !in s.calls
  }

  /** A call that is not done has a leader that will still mark it done. */
  ghost predicate CallOk(c: Config, s: State, l: Caller)
    requires l in s.calls
  {
    && l in s.phase
    && (if s.calls[l].done then s.phase[l].Returned? && s.phase[l].from == l
        else s.phase[l].Running? || s.phase[l].Finishing? || s.phase[l].Signalling?)
  }

  ghost predicate Inv(c: Config, s: State) {
    && s.phase.Keys == c.asks.Keys
    && (forall p :: p in s.phase ==> LeaderOk(c, s, p))
    && (forall l :: l in s.calls ==> CallOk(c, s, l))
    && (forall k :: k in s.inflight ==>
          && s.inflight[k] in s.phase && Leading(s.phase[s.inflight[k]]) && c.asks[s.inflight[k]].key == k)
  }

  lemma {:induction false} InitInv(c: Config, s: State)
    requires Init(c, s)
    ensures Inv(c, s)
  {}

  lemma {:induction false} ArriveInv(c: Config, s: State, t: State, p: Caller)
    requires Inv(c, s) && Arrive(c, s, t, p)
    ensures Inv(c, t)
  {
    forall q | q in t.phase ensures LeaderOk(c, t, q) {
      assert LeaderOk(c, s, q);
    }
    forall l | l in t.calls ensures CallOk(c, t, l) {
      if l in s.calls {
        assert CallOk(c, s, l);
      }
    }
  }

  lemma {:induction false} CompleteInv(c: Config, s: State, t: State, p: Caller, u: Upstream)
    requires Inv(c, s) && Complete(c, s, t, p, u)
    ensures Inv(c, t)
  {}

  lemma {:induction false} RemoveInv(c: Config, s: State, t: State, p: Caller)
    requires Inv(c, s) && Remove(c, s, t, p)
    ensures Inv(c, t)
  {}

  lemma {:induction false} SignalInv(c: Config, s: State, t: State, p: Caller)
    requires Inv(c, s) && Signal(c, s, t, p)
    ensures Inv(c, t)
  {
    forall q | q in t.phase ensures LeaderOk(c, t, q) {
      assert LeaderOk(c, s, q) && LeaderOk(c, s, p);
    }
    forall l | l in t.calls ensures CallOk(c, t, l) {
      assert CallOk(c, s, l);
    }
  }

  lemma {:induction false} WakeInv(c: Config, s: State, t: State, p: Caller)
    requires Inv(c, s) && Wake(c, s, t, p)
    ensures Inv(c, t)
  {}

  lemma {:induction false} StepInv(c: Config, s: State, t: State)
    requires Inv(c, s) && Step(c, s, t)
    ensures Inv(c, t)
  {
    var p, u :| StepBy(c, s, t, p, u);
    if Arrive(c, s, t, p) {
      ArriveInv(c, s, t, p);
    } else if Complete(c, s, t, p, u) {
      CompleteInv(c, s, t, p, u);
    } else if Remove(c, s, t, p) {
      RemoveInv(c, s, t, p);
    } else if Signal(c, s, t, p) {
      SignalInv(c, s, t, p);
    } else {
      WakeInv(c, s, t, p);
    }
  }

  lemma {:induction false} Reachable(c: Config, run: seq<State>, i: nat)
    requires IsRun(c, run) && i < |run|
    ensures Inv(c, run[i])
  {
    if i == 0 {
      InitInv(c, run[0]);
    } else {
      Reachable(c, run, i - 1);
      StepInv(c, run[i - 1], run[i]);
    }
  }

  // ---------- exclusivity ----------

  /** At most one upstream call per key is running. */
  lemma {:induction false} OneRunning(c: Config, run: seq<State>, i: nat, p: Caller, q: Caller)
    requires IsRun(c, run) && i < |run|
    requires p in run[i].phase && run[i].phase[p].Running? && q in run[i].phase && run[i].phase[q].Running?
    requires p in c.asks && q in c.asks && c.asks[p].key == c.asks[q].key
    ensures p == q
  {
    Reachable(c, run, i);
    assert LeaderOk(c, run[i], p) && LeaderOk(c, run[i], q);
  }

  /** The map holds, under each key, exactly the caller that is between insert and delete for it. */
  lemma {:induction false} EntryIsLeader(c: Config, run: seq<State>, i: nat, k: string, p: Caller)
    requires IsRun(c, run) && i < |run|
    ensures (k in run[i].inflight && run[i].inflight[k] == p) <==>
            (p in run[i].phase && p in c.asks && Leading(run[i].phase[p]) && c.asks[p].key == k)
  {
    Reachable(c, run, i);
    if p in run[i].phase {
      assert LeaderOk(c, run[i], p);
    }
  }

  /** A leader only ever deletes its own entry, and no other key's. */
  lemma {:induction false} RemovesOwnEntry(c: Config, run: seq<State>, i: nat, p: Caller)
    requires IsRun(c, run) && i + 1 < |run| && Remove(c, run[i], run[i + 1], p)
    ensures c.asks[p].key in run[i].inflight && run[i].inflight[c.asks[p].key] == p
    ensures forall k :: k != c.asks[p].key ==>
              (k in run[i].inflight <==> k in run[i + 1].inflight)
              && (k in run[i].inflight ==> run[i].inflight[k] == run[i + 1].inflight[k])
  {
    Reachable(c, run, i);
    assert LeaderOk(c, run[i], p);
  }

  // ---------- results ----------

  /** One step forgets no call, changes no outcome and undoes no completion. */
  lemma {:induction false} StepStable(c: Config, s: State, t: State, l: Caller)
    requires Inv(c, s) && Step(c, s, t) && l in s.calls
    ensures l in t.calls && t.calls[l].key == s.calls[l].key
    ensures s.calls[l].outcome.Some? ==> t.calls[l].outcome == s.calls[l].outcome
    ensures s.calls[l].done ==> t.calls[l].done
  {}

  /** The outcome of a call never changes once written. */
  lemma {:induction false} OutcomeStable(c: Config, run: seq<State>, i: nat, j: nat, l: Caller)
    requires IsRun(c, run) && i <= j < |run|
    requires l in run[i].calls
    ensures l in run[j].calls && run[j].calls[l].key == run[i].calls[l].key
    ensures run[i].calls[l].outcome.Some? ==> run[j].calls[l].outcome == run[i].calls[l].outcome
    ensures run[i].calls[l].done ==> run[j].calls[l].done
  {
    if i < j {
      OutcomeStable(c, run, i, j - 1, l);
      Reachable(c, run, j - 1);
      StepStable(c, run[j - 1], run[j], l);
    }
  }

  /** Nobody waits on a call that is neither done nor still led by a caller that will signal it. */
  lemma {:induction false} WaitersAreServed(c: Config, run: seq<State>, i: nat, p: Caller)
    requires IsRun(c, run) && i < |run| && p in run[i].phase && run[i].phase[p].Waiting?
    ensures var l := run[i].phase[p].on;
            && l in run[i].calls && l in run[i].phase && p in c.asks
            && run[i].calls[l].key == c.asks[p].key
            && (run[i].calls[l].done || run[i].phase[l].Running? || run[i].phase[l].Finishing?
                || run[i].phase[l].Signalling?)
  {
    Reachable(c, run, i);
    assert LeaderOk(c, run[i], p);
    assert CallOk(c, run[i], run[i].phase[p].on);
  }

  lemma {:induction false} StepJoined(c: Config, s: State, t: State, p: Caller)
    requires Inv(c, s) && Step(c, s, t) && p in s.phase
    ensures p in t.phase
    ensures s.phase[p].Waiting? ==>
              t.phase[p] == s.phase[p] || (t.phase[p].Returned? && t.phase[p].from == s.phase[p].on)
    ensures s.phase[p].Returned? ==> t.phase[p] == s.phase[p]
  {}

  /** A caller that joined a call returns from that very call, and a returned caller never changes. */
  lemma {:induction false} ReturnsFromJoined(c: Config, run: seq<State>, i: nat, j: nat, p: Caller)
    requires IsRun(c, run) && i <= j < |run| && p in run[i].phase
    ensures p in run[j].phase
    ensures run[i].phase[p].Waiting? && run[j].phase[p].Returned? ==> run[j].phase[p].from == run[i].phase[p].on
    ensures run[i].phase[p].Waiting? ==> run[j].phase[p] == run[i].phase[p] || run[j].phase[p].Returned?
    ensures run[i].phase[p].Returned? ==> run[j].phase[p] == run[i].phase[p]
  {
    if i < j {
      ReturnsFromJoined(c, run, i, j - 1, p);
      Reachable(c, run, j - 1);
      StepJoined(c, run[j - 1], run[j], p);
    }
  }

  /**
   Every caller returns the sections or the error of the call it led or joined, a call for its own
   key, and an answer carries its own Id and first question.
  */
  lemma {:induction false} Delivered(c: Config, run: seq<State>, i: nat, p: Caller)
    requires IsRun(c, run) && i < |run| && p in run[i].phase && run[i].phase[p].Returned?
    ensures var l, r := run[i].phase[p].from, run[i].phase[p].result;
            && p in c.asks && l in run[i].calls && run[i].calls[l].done && run[i].calls[l].outcome.Some?
            && run[i].calls[l].key == c.asks[p].key
            && var u, q := run[i].calls[l].outcome.value, c.asks[p].query;
               && (r.Answer? <==> u.Replied?)
               && (r.Answer? ==> r.msg.sections == u.sections && r.msg.id == q.id
                                 && (q.question != [] ==> r.msg.question == [q.question[0]]))
               && (u.Failed? ==> r == Error(u.error))
               && (c.site.Relay? && u.NoClient? ==> r == Error("no upstream configured"))
               && (r.Crash? <==> c.site.Relay? && u.Nothing?)
  {
    Reachable(c, run, i);
    assert LeaderOk(c, run[i], p);
  }

  // ---------- counters and quiescence ----------

  /** The calls that have come to an outcome; at the resolver, only those that had a client. */
  ghost function Counted(c: Config, s: State): set<Caller> {
    set l | l in s.calls && s.calls[l].outcome.Some? && (c.site.Relay? || !s.calls[l].outcome.value.NoClient?)
  }

  ghost function Joiners(s: State): set<Caller> {
    set p | p in s.phase && s.phase[p].Returned? && s.phase[p].from != p
  }

  ghost predicate CountersOk(c: Config, s: State) {
    s.called == |Counted(c, s)| && s.coalesced == |Joiners(s)|
  }

  lemma {:induction false} CompleteCounts(c: Config, s: State, t: State, p: Caller, u: Upstream)
    requires Inv(c, s) && CountersOk(c, s) && Complete(c, s, t, p, u)
    ensures CountersOk(c, t)
  {
    assert LeaderOk(c, s, p);
    assert Counted(c, t) == Counted(c, s) + if Counts(c.site, u) then {p} else {};
    assert p !in Counted(c, s);
    assert Joiners(t) == Joiners(s);
  }

  lemma {:induction false} WakeCounts(c: Config, s: State, t: State, p: Caller)
    requires Inv(c, s) && CountersOk(c, s) && Wake(c, s, t, p)
    ensures CountersOk(c, t)
  {
    assert LeaderOk(c, s, p);
    assert Joiners(t) == Joiners(s) + {p};
    assert p !in Joiners(s);
  }

  lemma {:induction false} ArriveCounts(c: Config, s: State, t: State, p: Caller)
    requires Inv(c, s) && CountersOk(c, s) && Arrive(c, s, t, p)
    ensures CountersOk(c, t)
  {
    assert LeaderOk(c, s, p);
    assert Counted(c, t) == Counted(c, s);
    assert Joiners(t) == Joiners(s);
  }

  lemma {:induction false} LeaveCounts(c: Config, s: State, t: State, p: Caller)
    requires Inv(c, s) && CountersOk(c, s) && (Remove(c, s, t, p) || Signal(c, s, t, p))
    ensures CountersOk(c, t)
  {
    assert Counted(c, t) == Counted(c, s);
    assert Joiners(t) == Joiners(s);
  }

  lemma {:induction false} StepCounters(c: Config, s: State, t: State)
    requires Inv(c, s) && CountersOk(c, s) && Step(c, s, t)
    ensures CountersOk(c, t)
  {
    var p, u :| StepBy(c, s, t, p, u);
    if Complete(c, s, t, p, u) {
      CompleteCounts(c, s, t, p, u);
    } else if Wake(c, s, t, p) {
      WakeCounts(c, s, t, p);
    } else if Arrive(c, s, t, p) {
      ArriveCounts(c, s, t, p);
    } else {
      LeaveCounts(c, s, t, p);
    }
  }

  /** At any time the two counters are the numbers of counted calls and of callers served by another's call. */
  lemma {:induction false} CountersReachable(c: Config, run: seq<State>, i: nat)
    requires IsRun(c, run) && i < |run|
    ensures CountersOk(c, run[i])
  {
    if i == 0 {
      assert Counted(c, run[0]) == {} && Joiners(run[0]) == {};
    } else {
      CountersReachable(c, run, i - 1);
      Reachable(c, run, i - 1);
      StepCounters(c, run[i - 1], run[i]);
    }
  }

  ghost predicate Quiescent(s: State) {
    forall p :: p in s.phase ==> s.phase[p].Returned?
  }

  lemma {:induction false} QuiescentSets(c: Config, s: State)
    requires Inv(c, s) && Quiescent(s)
    ensures s.phase.Keys == s.calls.Keys + Joiners(s) && s.calls.Keys !! Joiners(s)
    ensures forall l :: l in s.calls ==> s.calls[l].outcome.Some?
  {}

  lemma {:induction false} SubsetCount<T>(a: set<T>, b: set<T>)
    requires a <= b
    ensures |a| <= |b| && (|a| == |b| <==> a == b)
  {
    assert b == a + (b - a);
  }

  /**
   When everyone has returned the map is empty and real calls and piggybacked callers partition the
   callers, exactly when no call was refused for want of a client (at the relay: always).
  */
  lemma {:induction false} AtQuiescence(c: Config, run: seq<State>, i: nat)
    requires IsRun(c, run) && i < |run| && Quiescent(run[i])
    ensures run[i].inflight == map[]
    ensures run[i].called + run[i].coalesced <= |c.asks|
    ensures run[i].called + run[i].coalesced == |c.asks| <==>
            forall l :: l in run[i].calls && run[i].calls[l].outcome.Some?
                        ==> c.site.Relay? || !run[i].calls[l].outcome.value.NoClient?
  {
    var s := run[i];
    Reachable(c, run, i);
    CountersReachable(c, run, i);
    QuiescentSets(c, s);
    SubsetCount(Counted(c, s), s.calls.Keys);
    assert |c.asks| == |c.asks.Keys| == |s.calls.Keys| + |Joiners(s)|;
    assert forall k :: k in s.inflight ==> s.inflight[k] in s.phase && s.phase[s.inflight[k]].Returned?;
  }

  // ---------- progress ----------

  function Rank(ph: Phase): nat {
    match ph
    case Idle => 4
    case Running => 3
    case Finishing => 2
    case Signalling => 1
    case Waiting(_) => 1
    case Returned(_, _) => 0
  }

  ghost function Work(m: map<Caller, Phase>): nat {
    if m == map[] then 0
    else
      var p :| p in m;
      Rank(m[p]) + Work(m - {p})
  }

  lemma {:induction false} WorkSplit(m: map<Caller, Phase>, p: Caller)
    requires p in m
    ensures Work(m) == Rank(m[p]) + Work(m - {p})
    decreases |m|
  {
    var q :| q in m && Work(m) == Rank(m[q]) + Work(m - {q});
    if q != p {
      WorkSplit(m - {q}, p);
      WorkSplit(m - {p}, q);
      assert m - {q} - {p} == m - {p} - {q};
    }
  }

  lemma {:induction false} WorkBound(m: map<Caller, Phase>)
    ensures Work(m) <= 4 * |m.Keys|
    decreases |m|
  {
    if m != map[] {
      var p :| p in m && Work(m) == Rank(m[p]) + Work(m - {p});
      WorkBound(m - {p});
      assert (m - {p}).Keys == m.Keys - {p} && |m.Keys - {p}| == |m.Keys| - 1;
      assert Rank(m[p]) <= 4;
    }
  }

  /** A step moves one caller to a phase with less left to do. */
  lemma {:induction false} StepMoves(c: Config, s: State, t: State) returns (p: Caller, ph: Phase)
    requires Step(c, s, t)
    ensures p in s.phase && t.phase == s.phase[p := ph] && Rank(ph) < Rank(s.phase[p])
  {
    var u;
    p, u :| StepBy(c, s, t, p, u);
    ph := t.phase[p];
  }

  lemma {:induction false} StepWorks(c: Config, s: State, t: State)
    requires Step(c, s, t)
    ensures Work(t.phase) < Work(s.phase)
  {
    var p, ph := StepMoves(c, s, t);
    WorkSplit(s.phase, p);
    WorkSplit(s.phase[p := ph], p);
    assert s.phase - {p} == s.phase[p := ph] - {p};
  }

  lemma {:induction false} WorkSpent(c: Config, run: seq<State>, i: nat)
    requires IsRun(c, run) && i < |run|
    ensures i + Work(run[i].phase) <= 4 * |c.asks|
  {
    Reachable(c, run, i);
    if i == 0 {
      WorkBound(run[0].phase);
      assert |c.asks| == |c.asks.Keys|;
    } else {
      WorkSpent(c, run, i - 1);
      Reachable(c, run, i - 1);
      StepWorks(c, run[i - 1], run[i]);
    }
  }

  /** Every interleaving ends: a run has at most four steps per caller. */
  lemma {:induction false} RunsEnd(c: Config, run: seq<State>)
    requires IsRun(c, run)
    ensures |run| - 1 <= 4 * |c.asks|
  {
    WorkSpent(c, run, |run| - 1);
  }

  /** No deadlock: until everyone has returned some caller can step, once its upstream call returns. */
  lemma {:induction false} Progress(c: Config, run: seq<State>, i: nat) returns (t: State)
    requires IsRun(c, run) && i < |run| && !Quiescent(run[i])
    ensures Step(c, run[i], t)
  {
    var s := run[i];
    Reachable(c, run, i);
    var p :| p in s.phase && !s.phase[p].Returned?;
    assert LeaderOk(c, s, p);
    if s.phase[p].Waiting? {
      var l := s.phase[p].on;
      assert CallOk(c, s, l);
      if s.calls[l].done {
        t := s.(phase := s.phase[p := Returned(l, Deliver(c.site, s.calls[l].outcome.value, c.asks[p].query))],
                coalesced := s.coalesced + 1);
        assert StepBy(c, s, t, p, Nothing);
      } else {
        t := LeaderSteps(c, s, l);
      }
    } else if s.phase[p].Idle? {
      var k := c.asks[p].key;
      t := if k in s.inflight then s.(phase := s.phase[p := Waiting(s.inflight[k])])
           else s.(phase := s.phase[p := Running], inflight := s.inflight[k := p],
                   calls := s.calls[p := Call(k, None, false)]);
      assert StepBy(c, s, t, p, Nothing);
    } else {
      t := LeaderSteps(c, s, p);
    }
  }

  lemma {:induction false} LeaderSteps(c: Config, s: State, l: Caller) returns (t: State)
    requires Inv(c, s) && l in s.phase
    requires s.phase[l].Running? || s.phase[l].Finishing? || s.phase[l].Signalling?
    ensures Step(c, s, t)
  {
    assert LeaderOk(c, s, l);
    match s.phase[l]
    case Running =>
      t := s.(phase := s.phase[l := Finishing],
              calls := s.calls[l := s.calls[l].(outcome := Some(Nothing))],
              called := s.called + if Counts(c.site, Nothing) then 1 else 0);
      assert StepBy(c, s, t, l, Nothing);
    case Finishing =>
      t := s.(phase := s.phase[l := Signalling], inflight := s.inflight - {c.asks[l].key});
      assert StepBy(c, s, t, l, Nothing);
    case Signalling =>
      t := s.(phase := s.phase[l := Returned(l, Deliver(c.site, s.calls[l].outcome.value, c.asks[l].query))],
              calls := s.calls[l := s.calls[l].(done := true)]);
      assert StepBy(c, s, t, l, Nothing);
  }
}
