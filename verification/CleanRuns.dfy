/**
 Runs of the resolver with its cache, at the grain of its critical sections: queries that arrive and
 take one strategy after the other, background refreshes that their lookups begin, refreshes demanded
 through the admin interface, and removals, interleaved in any way under a clock that never runs back.
 Main result: exactly in which configurations no such run ever puts a banned answer into a clean cache
 (CacheStaysCleanIff). A query that nothing interleaves with does what Resolve does (LoneQueryIsResolve).
*/
module CleanRuns {
  import opened Wrappers
  import opened Messages
  import opened UpstreamSpec
  import opened CacheSpec
  import opened ResolverSpec
  import opened ResolverLaws
  import Spec = CacheSpec
  import Refresh = RefreshSpec

  /**
   The settings that matter. Equipped are the upstreams that have a client with servers to ask; demands
   says whether the admin interface is used to refresh entries.
  */
  datatype Config = Config(order: seq<string>, equipped: set<string>, ban: Option<BanList>, demands: bool)

  /** What a refresh meets: the upstreams, how messages pack, and the Id it drew. */
  datatype Fetch = Fetch(brings: Upstreams, pack: Msg -> Option<Packed>, id: bv16)

  datatype Step =
    | Arrive(req: Query, health: HealthView, adaptive: bool, now: int)
    | Advance(id: nat, w: World, now: int)         // one strategy's turn of a query
    | StoreFetched(id: nat, fetch: Fetch, now: int)
    | ClearFlag(id: nat, now: int)
    | Demand(question: Question, fetch: Fetch, now: int)
    | Remove(key: string, now: int)
    | RemoveName(name: string, now: int)
    | RemoveAll(now: int)

  /** A query under way, with its adapted order and the slot it has come to. */
  datatype Pending = Pending(req: Query, order: seq<string>, slot: nat)

  datatype Begun = Begun(question: Question, reason: RefreshReason)

  /** The cache, the queries under way, and the refreshes begun, stored and ended. */
  datatype System = System(
    cache: Held, queries: map<nat, Pending>, arrived: nat,
    begun: seq<Begun>, stored: set<nat>, ended: set<nat>)

  function AllBegun(q: Question, reasons: seq<RefreshReason>): seq<Begun> {
    seq(|reasons|, i requires 0 <= i < |reasons| => Begun(q, reasons[i]))
  }

  /** The world as one turn at this time meets it. */
  function WorldAt(c: Config, w: World, now: int): World {
    w.(relaySet := "relay" in c.equipped, at := _ => now)
  }

  /** A query takes its next turn: it is answered, goes on, or has run out of strategies. */
  function Advanced(c: Config, s: System, id: nat, w: World): System
    requires id in s.queries && s.queries[id].req.question != []
  {
    var q := s.queries[id];
    if q.slot >= |q.order| then s.(queries := s.queries - {id})
    else
      var strategy := q.order[q.slot];
      var (t, c') := TurnOf(q.req, strategy, q.slot, Some(s.cache), w);
      var held := if Usable(c.ban, t) && IsUpstream(strategy) then Remember(c', q.req, t.msg, w, q.slot) else c';
      s.(cache := if held.Some? then held.value else s.cache,
         queries := if Usable(c.ban, t) then s.queries - {id} else s.queries[id := q.(slot := q.slot + 1)],
         begun := s.begun + AllBegun(q.req.question[0],
                                     AsList(StartedBy(q.req, strategy, q.slot, Some(s.cache), w))))
  }

  /** A refresh stores the first upstream reply as it comes, if there is one. */
  function Refetched(c: Config, s: State, q: Question, fromPrefetch: bool, f: Fetch, now: int): State {
    match UpstreamOnly(c.order, 0, "relay" in c.equipped, f.brings)
    case None => s
    case Some(sections) =>
      var msg := Restamp(sections, Query(f.id, [q]));
      Spec.Store(s, KeyOf(q), msg.sections.answer, f.pack(msg), fromPrefetch, now)
  }

  ghost function Apply(c: Config, s: System, step: Step): System {
    match step
    case Arrive(req, health, adaptive, now) =>
      if req.question == [] then s
      else s.(queries := s.queries[s.arrived := Pending(req, Adapted(health, adaptive, c.order, now), 0)],
              arrived := s.arrived + 1)
    case Advance(id, w, now) =>
      if id in s.queries && s.queries[id].req.question != [] then Advanced(c, s, id, WorldAt(c, w, now)) else s
    case StoreFetched(id, f, now) =>
      if id >= |s.begun| || id in s.stored then s
      else
        var b := s.begun[id];
        s.(cache := s.cache.(state := Refetched(c, s.cache.state, b.question, b.reason.ForPrefetch?, f, now)),
           stored := s.stored + {id})
    case ClearFlag(id, _) =>
      if id >= |s.begun| || id !in s.stored || id in s.ended then s
      else s.(cache := s.cache.(book := Refresh.Finish(s.cache.book, KeyOf(s.begun[id].question))),
              ended := s.ended + {id})
    case Demand(q, f, now) =>
      if !c.demands then s else s.(cache := s.cache.(state := Refetched(c, s.cache.state, q, false, f, now)))
    case Remove(k, _) => s.(cache := s.cache.(state := Spec.Delete(s.cache.state, k)))
    case RemoveName(name, _) => s.(cache := s.cache.(state := Spec.FlushName(s.cache.state, name)))
    case RemoveAll(_) => s.(cache := Held(Spec.Flush(s.cache.state), Refresh.EMPTY_BOOK))
  }

  function Initial(start: State): System {
    System(Held(start, Refresh.EMPTY_BOOK), map[], 0, [], {}, {})
  }

  ghost function Fold(f: (System, Step) -> System, s: System, steps: seq<Step>): System {
    if steps == [] then s else f(Fold(f, s, steps[..|steps| - 1]), steps[|steps| - 1])
  }

  ghost function Stepper(c: Config): (System, Step) -> System {
    (s: System, step: Step) => Apply(c, s, step)
  }

  /** What becomes of a system by these steps. */
  ghost function Go(c: Config, s: System, steps: seq<Step>): System {
    Fold(Stepper(c), s, steps)
  }

  ghost function After(c: Config, start: State, steps: seq<Step>): System {
    Go(c, Initial(start), steps)
  }

  lemma {:induction false} FoldAppend(f: (System, Step) -> System, s: System, a: seq<Step>, b: seq<Step>)
    ensures Fold(f, s, a + b) == Fold(f, Fold(f, s, a), b)
  {
    if b == [] {
      assert a + b == a;
    } else {
      FoldAppend(f, s, a, b[..|b| - 1]);
      assert (a + b)[..|a + b| - 1] == a + b[..|b| - 1];
    }
  }

  lemma {:induction false} FoldFirst(f: (System, Step) -> System, s: System, first: Step, rest: seq<Step>)
    ensures Fold(f, s, [first] + rest) == Fold(f, f(s, first), rest)
  {
    FoldAppend(f, s, [first], rest);
    assert [first][..0] == [];
  }

  /** Only equipped upstreams reply, plain filters by the same ban list, and messages unpack to what was packed. */
  ghost predicate LegalWorld(c: Config, brings: Upstreams, pack: Msg -> Option<Packed>) {
    OnlyEquipped(c.equipped, brings) && PlainFilters(c.ban, brings) && Faithful(pack)
  }

  ghost predicate Legal(c: Config, step: Step) {
    match step
    case Advance(_, w, _) => LegalWorld(c, w.brings, w.pack)
    case StoreFetched(_, f, _) => LegalWorld(c, f.brings, f.pack)
    case Demand(_, f, _) => LegalWorld(c, f.brings, f.pack)
    case _ => true
  }

  /** Legal steps under a clock that never runs back. */
  ghost predicate AllLegal(c: Config, steps: seq<Step>) {
    && (forall i :: 0 <= i < |steps| ==> Legal(c, steps[i]))
    && (forall i, j :: 0 <= i < j < |steps| ==> steps[i].now <= steps[j].now)
  }

  /** A lookup can start a background refresh at all. */
  predicate MayRefresh(o: Options) {
    o.canRefresh && (o.staleMaxAge > 0 || (o.prefetch.enabled && o.prefetch.threshold >= 0))
  }

  /** Some refresh can come about, by a lookup of a query or on demand. */
  predicate RefreshesHappen(c: Config, o: Options) {
    c.demands || (MayRefresh(o) && "cache" in c.order)
  }

  ghost predicate AlwaysClean(c: Config, o: Options) {
    forall start: State, steps: seq<Step> ::
      start.opts == o && Started(start) && Clean(c.ban, start) && AllLegal(c, steps)
      ==> Clean(c.ban, After(c, start, steps).cache.state)
  }

  // ---------- what keeps the cache clean ----------

  ghost predicate LooksUpLikeConfig(c: Config, queries: map<nat, Pending>) {
    forall id :: id in queries && "cache" in queries[id].order ==> "cache" in c.order
  }

  /** What is kept: the options, a clean cache, and, where no refresh happens, none begun. */
  ghost predicate Kept(c: Config, o: Options, s: System) {
    && s.cache.state.opts == o && Clean(c.ban, s.cache.state)
    && LooksUpLikeConfig(c, s.queries)
    && (!RefreshesHappen(c, o) ==> s.begun == [])
  }

  ghost predicate Harmless(c: Config, o: Options) {
    !BansSomething(c.ban) || OnlyPlain(c.order, c.equipped) || !RefreshesHappen(c, o)
  }

  lemma {:induction false} RefetchKeepsClean(c: Config, s: State, q: Question, fromPrefetch: bool, f: Fetch, now: int)
    requires Clean(c.ban, s) && LegalWorld(c, f.brings, f.pack)
    requires !BansSomething(c.ban) || OnlyPlain(c.order, c.equipped)
    ensures Clean(c.ban, Refetched(c, s, q, fromPrefetch, f, now))
    ensures Refetched(c, s, q, fromPrefetch, f, now).opts == s.opts
  {
    var reply := UpstreamOnly(c.order, 0, "relay" in c.equipped, f.brings);
    if reply.Some? {
      if BansSomething(c.ban) {
        OnlyPlainIsClean(c.order, 0, c.equipped, c.ban, f.brings);
      }
      StoreKeepsClean(c.ban, s, KeyOf(q), Restamp(reply.value, Query(f.id, [q])), f.pack, fromPrefetch, now);
    }
  }

  lemma {:induction false} WithoutNameWithin(lines: seq<Line>, name: string)
    ensures forall x :: x in WithoutName(lines, name) ==> x in lines
  {
    if lines != [] {
      WithoutNameWithin(lines[1..], name);
    }
  }

  lemma {:induction false} TurnKeeps(c: Config, held: Held, req: Query, strategy: string, i: nat, w: World)
    requires req.question != [] && Clean(c.ban, held.state) && Faithful(w.pack)
    ensures var (t, c') := TurnOf(req, strategy, i, Some(held), w);
            && c'.Some? && Clean(c.ban, c'.value.state) && c'.value.state.opts == held.state.opts
            && (Usable(c.ban, t) && IsUpstream(strategy) ==>
                  var kept := Remember(c', req, t.msg, w, i);
                  kept.Some? && Clean(c.ban, kept.value.state) && kept.value.state.opts == held.state.opts)
    ensures StartedBy(req, strategy, i, Some(held), w).Some? ==> strategy == "cache" && MayRefresh(held.state.opts)
  {
    GetKeepsClean(c.ban, held.state, KeyOf(req.question[0]), w.at(i));
    var (t, c') := TurnOf(req, strategy, i, Some(held), w);
    if Usable(c.ban, t) {
      StoreKeepsClean(c.ban, c'.value.state, KeyOf(req.question[0]), t.msg, w.pack, false, w.at(i));
    }
  }

  lemma {:induction false} AdvanceKeeps(c: Config, o: Options, s: System, step: Step)
    requires Kept(c, o, s) && step.Advance? && Legal(c, step)
    ensures Kept(c, o, Apply(c, s, step))
  {
    if step.id in s.queries {
      var q := s.queries[step.id];
      if q.req.question != [] && q.slot < |q.order| {
        TurnKeeps(c, s.cache, q.req, q.order[q.slot], q.slot, WorldAt(c, step.w, step.now));
      }
    }
  }

  lemma {:induction false} ArriveKeeps(c: Config, o: Options, s: System, step: Step)
    requires Kept(c, o, s) && step.Arrive?
    ensures Kept(c, o, Apply(c, s, step))
  {
    var order := Adapted(step.health, step.adaptive, c.order, step.now);
    AdaptedKeepsSlots(step.health, step.adaptive, c.order, step.now);
    if "cache" in order {
      assert "cache" in multiset(order);
    }
  }

  lemma {:induction false} StepKeeps(c: Config, o: Options, s: System, step: Step)
    requires Harmless(c, o) && Kept(c, o, s) && Legal(c, step)
    ensures Kept(c, o, Apply(c, s, step))
  {
    match step
    case Arrive(_, _, _, _) => ArriveKeeps(c, o, s, step);
    case Advance(_, _, _) => AdvanceKeeps(c, o, s, step);
    case StoreFetched(id, f, now) =>
      if id < |s.begun| {
        RefetchKeepsClean(c, s.cache.state, s.begun[id].question, s.begun[id].reason.ForPrefetch?, f, now);
      }
    case ClearFlag(_, _) =>
    case Demand(q, f, now) =>
      if c.demands {
        RefetchKeepsClean(c, s.cache.state, q, false, f, now);
      }
    case Remove(k, _) => WithoutWithin(s.cache.state.lines, k);
    case RemoveName(name, _) => WithoutNameWithin(s.cache.state.lines, name);
    case RemoveAll(_) =>
  }

  lemma {:induction false} HarmlessStaysClean(c: Config, start: State, steps: seq<Step>)
    requires Harmless(c, start.opts) && Clean(c.ban, start) && AllLegal(c, steps)
    ensures Kept(c, start.opts, After(c, start, steps))
  {
    if steps == [] {
      assert Clean(c.ban, Initial(start).cache.state);
    } else {
      HarmlessStaysClean(c, start, steps[..|steps| - 1]);
      StepKeeps(c, start.opts, After(c, start, steps[..|steps| - 1]), steps[|steps| - 1]);
    }
  }

  // ---------- a query on its own ----------

  function Advances(id: nat, w: World, now: int, n: nat): seq<Step> {
    if n == 0 then [] else [Advance(id, w, now)] + Advances(id, w, now, n - 1)
  }

  lemma {:induction false} DoneStays(c: Config, s: System, id: nat, w: World, now: int, n: nat)
    requires id !in s.queries
    ensures Go(c, s, Advances(id, w, now, n)) == s
  {
    if n > 0 {
      FoldFirst(Stepper(c), s, Advance(id, w, now), Advances(id, w, now, n - 1));
      DoneStays(c, s, id, w, now, n - 1);
    }
  }

  /** What has become of a query that took its turns undisturbed, and was answered as r tells. */
  ghost predicate Served(s: System, t: System, id: nat, req: Query, base: seq<Begun>, r: Resolved)
    requires req.question != []
  {
    && r.cache.Some?
    && t == s.(cache := r.cache.value, queries := s.queries - {id},
               begun := base + AllBegun(req.question[0], r.started))
  }

  /** One turn that settles nothing. */
  lemma {:induction false} TurnGoesOn(c: Config, s: System, id: nat, q: Pending, w: World, base: seq<Begun>,
                                      acc: seq<RefreshReason>)
    requires id in s.queries && s.queries[id] == q && q.req.question != [] && q.slot < |q.order|
    requires s.begun == base + AllBegun(q.req.question[0], acc)
    requires !Usable(c.ban, TurnOf(q.req, q.order[q.slot], q.slot, Some(s.cache), w).0)
    ensures var (t, c') := TurnOf(q.req, q.order[q.slot], q.slot, Some(s.cache), w);
            var more := acc + AsList(StartedBy(q.req, q.order[q.slot], q.slot, Some(s.cache), w));
            && c'.Some?
            && Advanced(c, s, id, w)
               == s.(cache := c'.value, queries := s.queries[id := q.(slot := q.slot + 1)],
                     begun := base + AllBegun(q.req.question[0], more))
            && Walk(q.req, q.order, q.slot, Some(s.cache), acc, c.ban, w)
               == Walk(q.req, q.order, q.slot + 1, c', more, c.ban, w)
  {}

  /** One turn that answers the query. */
  lemma {:induction false} TurnAnswers(c: Config, s: System, id: nat, q: Pending, w: World, base: seq<Begun>,
                                       acc: seq<RefreshReason>)
    requires id in s.queries && s.queries[id] == q && q.req.question != [] && q.slot < |q.order|
    requires s.begun == base + AllBegun(q.req.question[0], acc)
    requires Usable(c.ban, TurnOf(q.req, q.order[q.slot], q.slot, Some(s.cache), w).0)
    ensures Served(s, Advanced(c, s, id, w), id, q.req, base,
                   Walk(q.req, q.order, q.slot, Some(s.cache), acc, c.ban, w))
  {}

  lemma {:induction false} FirstTurn(c: Config, s: System, id: nat, w: World, now: int, n: nat)
    requires id in s.queries && s.queries[id].req.question != []
    ensures Go(c, s, Advances(id, w, now, n + 1))
            == Go(c, Advanced(c, s, id, WorldAt(c, w, now)), Advances(id, w, now, n))
  {
    FoldFirst(Stepper(c), s, Advance(id, w, now), Advances(id, w, now, n));
  }

  /** What is served after one more turn is served. */
  lemma {:induction false} ServedThrough(s: System, t: System, end: System, id: nat, q: Pending, base: seq<Begun>,
                                         r: Resolved)
    requires q.req.question != [] && t == s.(cache := t.cache, queries := s.queries[id := q], begun := t.begun)
    requires Served(t, end, id, q.req, base, r)
    ensures Served(s, end, id, q.req, base, r)
  {
    assert t.queries - {id} == s.queries - {id};
  }

  /** The turns from a slot on, one after the other, are the walk from that slot on. */
  lemma {:induction false} TurnsAreWalk(c: Config, s: System, id: nat, q: Pending, w: World, now: int,
                                        base: seq<Begun>, acc: seq<RefreshReason>)
    requires id in s.queries && s.queries[id] == q && q.req.question != [] && q.slot <= |q.order|
    requires s.begun == base + AllBegun(q.req.question[0], acc)
    ensures Served(s, Go(c, s, Advances(id, w, now, |q.order| - q.slot + 1)), id, q.req, base,
                   Walk(q.req, q.order, q.slot, Some(s.cache), acc, c.ban, WorldAt(c, w, now)))
    decreases |q.order| - q.slot
  {
    var n, w' := |q.order| - q.slot, WorldAt(c, w, now);
    var t := Advanced(c, s, id, w');
    FirstTurn(c, s, id, w, now, n);
    if q.slot == |q.order| {
      // SERVFAIL: the walk ends here as well
    } else if Usable(c.ban, TurnOf(q.req, q.order[q.slot], q.slot, Some(s.cache), w').0) {
      TurnAnswers(c, s, id, q, w', base, acc);
      DoneStays(c, t, id, w, now, n);
    } else {
      TurnGoesOn(c, s, id, q, w', base, acc);
      var more := acc + AsList(StartedBy(q.req, q.order[q.slot], q.slot, Some(s.cache), w'));
      var next := q.(slot := q.slot + 1);
      TurnsAreWalk(c, t, id, next, w, now, base, more);
      ServedThrough(s, t, Go(c, t, Advances(id, w, now, n)), id, next, base,
                    Walk(q.req, q.order, q.slot + 1, Some(t.cache), more, c.ban, w'));
    }
  }

  /** All the steps of a query that arrives as number id and is given as many turns as it can need. */
  ghost function LoneQuery(c: Config, id: nat, req: Query, health: HealthView, adaptive: bool, w: World,
                           now: int): seq<Step> {
    [Arrive(req, health, adaptive, now)]
    + Advances(id, w, now, |Adapted(health, adaptive, c.order, now)| + 1)
  }

  /** The system after a query has been answered as r tells, and nothing else has happened. */
  function AnsweredBy(s: System, req: Query, r: Resolved): System
    requires req.question != [] && r.cache.Some?
  {
    s.(cache := r.cache.value, arrived := s.arrived + 1, begun := s.begun + AllBegun(req.question[0], r.started))
  }

  lemma {:induction false} ServedIsAnswered(s: System, q: Pending, end: System, r: Resolved)
    requires q.req.question != [] && s.arrived !in s.queries
    requires Served(Joined(s, q), end, s.arrived, q.req, s.begun, r)
    ensures r.cache.Some? && end == AnsweredBy(s, q.req, r)
  {
    assert s.queries[s.arrived := q] - {s.arrived} == s.queries;
  }

  lemma {:induction false} NothingBegun(begun: seq<Begun>, q: Question)
    ensures begun + AllBegun(q, []) == begun
  {}

  function Joined(s: System, q: Pending): System {
    s.(queries := s.queries[s.arrived := q], arrived := s.arrived + 1)
  }

  lemma {:induction false} ArriveAndTurn(c: Config, s: System, q: Pending, w: World, now: int)
    requires q.req.question != [] && s.arrived !in s.queries && q.slot <= |q.order|
    ensures var r := Walk(q.req, q.order, q.slot, Some(s.cache), [], c.ban, WorldAt(c, w, now));
            && r.cache.Some?
            && Go(c, Joined(s, q), Advances(s.arrived, w, now, |q.order| - q.slot + 1)) == AnsweredBy(s, q.req, r)
  {
    var t := Joined(s, q);
    NothingBegun(s.begun, q.req.question[0]);
    TurnsAreWalk(c, t, s.arrived, q, w, now, s.begun, []);
    ServedIsAnswered(s, q, Go(c, t, Advances(s.arrived, w, now, |q.order| - q.slot + 1)),
                     Walk(q.req, q.order, q.slot, Some(s.cache), [], c.ban, WorldAt(c, w, now)));
  }

  /** A query that nothing interleaves with does to the cache what Resolve does, and begins its refreshes. */
  lemma {:induction false} LoneQueryIsResolve(c: Config, s: System, req: Query, health: HealthView, adaptive: bool,
                                              w: World, now: int)
    requires req.question != [] && s.arrived !in s.queries
    ensures var r := Resolve(req, Adapted(health, adaptive, c.order, now), Some(s.cache), c.ban, WorldAt(c, w, now));
            && r.cache.Some?
            && Go(c, s, LoneQuery(c, s.arrived, req, health, adaptive, w, now)) == AnsweredBy(s, req, r)
  {
    var q := Pending(req, Adapted(health, adaptive, c.order, now), 0);
    FoldFirst(Stepper(c), s, Arrive(req, health, adaptive, now), Advances(s.arrived, w, now, |q.order| - q.slot + 1));
    ArriveAndTurn(c, s, q, w, now);
  }

  // ---------- a run that poisons the cache ----------

  const Q := Question("a.", "A")

  const ASK := Query(0, [Q])

  const GOOD := Sections([Other("", 60)], [], [])

  function Exactly(msg: Msg): Option<Packed> {
    Some(Packed(Some(msg.sections)))
  }

  /** Only the upstream in slot j replies, with a clean answer. */
  function Answering(c: Config, j: nat): World
    requires j < |c.order|
  {
    World(_ => NoRecord, false, (s: string, i: nat) => if i == j && s == c.order[j] then Some(GOOD) else None,
          Exactly, _ => 0)
  }

  /** Nobody replies. */
  function Silent(): World {
    World(_ => NoRecord, false, (s: string, i: nat) => None, Exactly, _ => 0)
  }

  ghost function AskIn(c: Config, id: nat, w: World, now: int): seq<Step> {
    LoneQuery(c, id, ASK, None, false, w, now)
  }

  lemma {:induction false} OneMinuteLasts(o: Options, answer: seq<RR>)
    requires |answer| == 1 && answer[0].ttl == 60
    ensures ClampedTTL(o, answer) > 0
  {
    var i := ClampBounds(o, answer);
  }

  /** The cache holds just the good answer, hit n times, and no refresh is booked. */
  ghost predicate Holding(o: Options, held: Held, n: nat) {
    && held.state.opts == o && held.book == Refresh.EMPTY_BOOK
    && held.state.lines == [Line(KeyOf(Q), Packed(Some(GOOD)), ClampedTTL(o, GOOD.answer), n, false)]
  }

  /** A slot that settles nothing and starts nothing passes the walk on. */
  lemma {:induction false} PassOn(req: Query, order: seq<string>, i: nat, c: Option<Held>, ban: Option<BanList>,
                                  w: World)
    requires req.question != [] && i < |order|
    requires !Usable(ban, TurnOf(req, order[i], i, c, w).0) && StartedBy(req, order[i], i, c, w).None?
    ensures Walk(req, order, i, c, [], ban, w) == Walk(req, order, i + 1, TurnOf(req, order[i], i, c, w).1, [], ban, w)
  {
    var none: seq<RefreshReason> := [];
    assert none + AsList(None) == none;
  }

  /** The upstream in slot j can reply, and is not plain. */
  predicate Source(c: Config, j: nat) {
    j < |c.order| && InUse(c.order[j], c.equipped) && c.order[j] != "plain"
  }

  lemma {:induction false} WalkToSource(c: Config, o: Options, i: nat, j: nat, held: Held)
    requires Source(c, j) && i <= j && o.maxEntries > 0
    requires held.state.opts == o && held.state.lines == [] && held.book == Refresh.EMPTY_BOOK
    ensures var r := Walk(ASK, c.order, i, Some(held), [], c.ban, WorldAt(c, Answering(c, j), 0));
            r.cache.Some? && Holding(o, r.cache.value, 0) && r.started == []
    decreases j - i
  {
    var w := WorldAt(c, Answering(c, j), 0);
    var (t, c') := TurnOf(ASK, c.order[i], i, Some(held), w);
    if i < j {
      PassOn(ASK, c.order, i, Some(held), c.ban, w);
      WalkToSource(c, o, i + 1, j, c'.value);
    } else {
      OneMinuteLasts(o, GOOD.answer);
      assert t == Produced(Restamp(GOOD, ASK)) && BanFree(c.ban, GOOD);
    }
  }

  lemma {:induction false} HitHolding(o: Options, held: Held, n: nat, now: int)
    requires Holding(o, held, n)
    requires Servable(o, now)
    ensures var g := Spec.Get(held.state, KeyOf(Q), now);
            var left := ClampedTTL(o, GOOD.answer) - now;
            && !g.outcome.Miss? && g.outcome.sections == GOOD && g.after.opts == o
            && g.after.lines == [Line(KeyOf(Q), Packed(Some(GOOD)), ClampedTTL(o, GOOD.answer), n + 1, false)]
            && g.wants == (if left < 0 then Some(ForStale)
                           else if WantsPrefetch(o, left, n + 1) then Some(ForPrefetch)
                           else None)
  {
    assert held.state.lines[1..] == [];
    assert Without(held.state.lines, KeyOf(Q)) == [];
  }

  /** A query that nobody answers reaches a cache slot and hits there. */
  lemma {:induction false} WalkToCache(c: Config, o: Options, i: nat, held: Held, n: nat, now: int)
    requires i <= |c.order| && "cache" in c.order[i..] && Holding(o, held, n)
    requires Servable(o, now)
    ensures var r := Walk(ASK, c.order, i, Some(held), [], c.ban, WorldAt(c, Silent(), now));
            var wants := Spec.Get(held.state, KeyOf(Q), now).wants;
            && r.cache.Some? && r.started == AsList(wants)
            && r.cache.value.state == Spec.Get(held.state, KeyOf(Q), now).after
            && (wants.None? ==> Holding(o, r.cache.value, n + 1))
    decreases |c.order| - i
  {
    var w := WorldAt(c, Silent(), now);
    HitHolding(o, held, n, now);
    if c.order[i] != "cache" {
      assert c.order[i..] == [c.order[i]] + c.order[i + 1..];
      PassOn(ASK, c.order, i, Some(held), c.ban, w);
      WalkToCache(c, o, i + 1, held, n, now);
    }
  }

  /** After n queries the cache holds the good answer, hit n - 1 times, and nothing else is going on. */
  ghost predicate Warmed(o: Options, s: System, n: nat) {
    n > 0 && Holding(o, s.cache, n - 1) && s.queries == map[] && s.arrived == n && s.begun == [] && s.stored == {}
  }

  lemma {:induction false} FirstAsk(c: Config, o: Options, j: nat)
    requires Source(c, j) && o.maxEntries > 0
    ensures Warmed(o, After(c, Restarted(o, []), AskIn(c, 0, Answering(c, j), 0)), 1)
  {
    LoneQueryIsResolve(c, Initial(Restarted(o, [])), ASK, None, false, Answering(c, j), 0);
    WalkToSource(c, o, 0, j, Held(Restarted(o, []), Refresh.EMPTY_BOOK));
  }

  /** The answer has been hit once more, after n queries, and the refresh that the lookup asks for has begun, if any. */
  ghost predicate HitOnceMore(c: Config, o: Options, t: System, n: nat, now: int) {
    var left := ClampedTTL(o, GOOD.answer) - now;
    && t.stored == {} && t.cache.state.opts == o && Clean(c.ban, t.cache.state)
    && (left < 0 ==> t.begun == [Begun(Q, ForStale)])
    && (left >= 0 && WantsPrefetch(o, left, n) ==> t.begun == [Begun(Q, ForPrefetch)])
    && (left >= 0 && !WantsPrefetch(o, left, n) ==> Warmed(o, t, n + 1))
  }

  predicate Servable(o: Options, now: int) {
    var late := now - ClampedTTL(o, GOOD.answer);
    late > 0 ==> StaleUsable(o, late)
  }

  lemma {:induction false} NextAsk(c: Config, o: Options, s: System, n: nat, now: int)
    requires "cache" in c.order && Warmed(o, s, n) && Servable(o, now)
    ensures HitOnceMore(c, o, Go(c, s, AskIn(c, n, Silent(), now)), n, now)
  {
    LoneQueryIsResolve(c, s, ASK, None, false, Silent(), now);
    assert c.order[0..] == c.order;
    HitHolding(o, s.cache, n - 1, now);
    WalkToCache(c, o, 0, s.cache, n - 1, now);
    assert BanFree(c.ban, GOOD);
  }

  lemma {:induction false} NextAfter(c: Config, o: Options, steps: seq<Step>, n: nat, now: int)
    requires "cache" in c.order && Warmed(o, After(c, Restarted(o, []), steps), n) && Servable(o, now)
    ensures HitOnceMore(c, o, After(c, Restarted(o, []), steps + AskIn(c, n, Silent(), now)), n, now)
  {
    FoldAppend(Stepper(c), Initial(Restarted(o, [])), steps, AskIn(c, n, Silent(), now));
    NextAsk(c, o, After(c, Restarted(o, []), steps), n, now);
  }

  /** First the good answer is stored, then it is hit n times at the very end of its lifetime. */
  ghost function Warm(c: Config, o: Options, j: nat, n: nat): seq<Step>
    requires j < |c.order|
  {
    if n == 0 then AskIn(c, 0, Answering(c, j), 0)
    else Warm(c, o, j, n - 1) + AskIn(c, n, Silent(), ClampedTTL(o, GOOD.answer))
  }

  lemma {:induction false} WarmHolds(c: Config, o: Options, j: nat, n: nat)
    requires Source(c, j) && o.maxEntries > 0 && "cache" in c.order && (n > 0 ==> n < o.prefetch.minHits)
    ensures Warmed(o, After(c, Restarted(o, []), Warm(c, o, j, n)), n + 1)
  {
    if n == 0 {
      FirstAsk(c, o, j);
    } else {
      WarmHolds(c, o, j, n - 1);
      NextAfter(c, o, Warm(c, o, j, n - 1), n, ClampedTTL(o, GOOD.answer));
    }
  }

  // ---------- such runs are legal ----------

  ghost predicate LegalUpTo(c: Config, steps: seq<Step>, now: int) {
    AllLegal(c, steps) && forall i :: 0 <= i < |steps| ==> steps[i].now <= now
  }

  lemma {:induction false} AdvancesLegal(c: Config, id: nat, w: World, now: int, n: nat)
    requires LegalWorld(c, w.brings, w.pack)
    ensures forall i :: 0 <= i < |Advances(id, w, now, n)| ==>
              Legal(c, Advances(id, w, now, n)[i]) && Advances(id, w, now, n)[i].now == now
  {
    if n > 0 {
      AdvancesLegal(c, id, w, now, n - 1);
    }
  }

  lemma {:induction false} AskGoesOn(c: Config, steps: seq<Step>, before: int, id: nat, w: World, now: int)
    requires LegalUpTo(c, steps, before) && before <= now && LegalWorld(c, w.brings, w.pack)
    ensures LegalUpTo(c, steps + AskIn(c, id, w, now), now)
  {
    AdvancesLegal(c, id, w, now, |c.order| + 1);
  }

  lemma {:induction false} WarmLegal(c: Config, o: Options, j: nat, n: nat)
    requires Source(c, j)
    ensures LegalUpTo(c, Warm(c, o, j, n), ClampedTTL(o, GOOD.answer))
  {
    OneMinuteLasts(o, GOOD.answer);
    if n == 0 {
      assert BanFree(c.ban, GOOD);
      AskGoesOn(c, [], 0, 0, Answering(c, j), 0);
      assert [] + AskIn(c, 0, Answering(c, j), 0) == AskIn(c, 0, Answering(c, j), 0);
    } else {
      WarmLegal(c, o, j, n - 1);
      AskGoesOn(c, Warm(c, o, j, n - 1), ClampedTTL(o, GOOD.answer), n, Silent(), ClampedTTL(o, GOOD.answer));
    }
  }

  lemma {:induction false} HitBegins(c: Config, o: Options, t: System, n: nat, now: int)
    requires HitOnceMore(c, o, t, n, now)
    requires var left := ClampedTTL(o, GOOD.answer) - now; left < 0 || WantsPrefetch(o, left, n)
    ensures |t.begun| == 1 && t.begun[0].question == Q && t.stored == {}
    ensures t.cache.state.opts == o && Clean(c.ban, t.cache.state)
  {}

  /** After enough hits, one more at the right time starts a refresh. */
  lemma {:induction false} OneRefreshStarts(c: Config, o: Options, j: nat) returns (steps: seq<Step>, now: int)
    requires Source(c, j) && o.maxEntries > 0 && "cache" in c.order && MayRefresh(o)
    ensures LegalUpTo(c, steps, now)
    ensures var s := After(c, Restarted(o, []), steps);
            && |s.begun| == 1 && s.begun[0].question == Q && s.stored == {}
            && s.cache.state.opts == o && Clean(c.ban, s.cache.state)
  {
    var n := if o.staleMaxAge > 0 || o.prefetch.minHits == 0 then 0 else o.prefetch.minHits - 1;
    now := ClampedTTL(o, GOOD.answer) + if o.staleMaxAge > 0 then 1 else 0;
    var warm := Warm(c, o, j, n);
    WarmHolds(c, o, j, n);
    WarmLegal(c, o, j, n);
    steps := warm + AskIn(c, n + 1, Silent(), now);
    AskGoesOn(c, warm, ClampedTTL(o, GOOD.answer), n + 1, Silent(), now);
    NextAfter(c, o, warm, n + 1, now);
    HitBegins(c, o, After(c, Restarted(o, []), steps), n + 1, now);
  }

  /** A refresh that brings a banned answer poisons a clean cache. */
  lemma {:induction false} RefetchPoisons(c: Config, s: State, fromPrefetch: bool, j: nat, now: int) returns (f: Fetch)
    requires BansSomething(c.ban) && Source(c, j) && Clean(c.ban, s) && s.opts.maxEntries > 0
    ensures LegalWorld(c, f.brings, f.pack)
    ensures !Clean(c.ban, Refetched(c, s, Q, fromPrefetch, f, now))
  {
    var brings, poison := OthersCanPoison(c.order, c.equipped, c.ban, j);
    f := Fetch(brings, Exactly, 0);
    OneMinuteLasts(s.opts, poison.answer);
    UncheckedStoreCleanIff(c.ban, s, KeyOf(Q), Restamp(poison, Query(0, [Q])), fromPrefetch, now);
  }

  /** In every other configuration some run poisons an empty cache. */
  lemma {:induction false} SomeRunPoisons(c: Config, o: Options) returns (steps: seq<Step>)
    requires o.maxEntries > 0 && !Harmless(c, o)
    ensures AllLegal(c, steps) && !Clean(c.ban, After(c, Restarted(o, []), steps).cache.state)
  {
    var start := Restarted(o, []);
    var j :| 0 <= j < |c.order| && InUse(c.order[j], c.equipped) && c.order[j] != "plain";
    if c.demands {
      var f := RefetchPoisons(c, start, false, j, 0);
      steps := [Demand(Q, f, 0)];
      FoldFirst(Stepper(c), Initial(start), Demand(Q, f, 0), []);
      assert [Demand(Q, f, 0)] + [] == steps;
    } else {
      var before, now := OneRefreshStarts(c, o, j);
      var s := After(c, start, before);
      var f := RefetchPoisons(c, s.cache.state, s.begun[0].reason.ForPrefetch?, j, now);
      steps := before + [StoreFetched(0, f, now)];
      assert steps[..|before|] == before;
    }
  }

  /**
   Exactly when no run ever puts a banned answer into a clean cache: when nothing is banned, or plain is
   the only upstream in use, or no refresh ever happens: none is demanded, and lookups cannot start one
   or are not made.
  */
  lemma {:induction false} CacheStaysCleanIff(c: Config, o: Options)
    requires o.maxEntries > 0
    ensures AlwaysClean(c, o) <==>
            !BansSomething(c.ban) || OnlyPlain(c.order, c.equipped)
            || (!c.demands && (!MayRefresh(o) || "cache" !in c.order))
  {
    if Harmless(c, o) {
      forall start: State, steps: seq<Step> |
        start.opts == o && Started(start) && Clean(c.ban, start) && AllLegal(c, steps)
        ensures Clean(c.ban, After(c, start, steps).cache.state)
      {
        HarmlessStaysClean(c, start, steps);
      }
    } else {
      var steps := SomeRunPoisons(c, o);
      assert Restarted(o, []).opts == o && Started(Restarted(o, []));
    }
  }

  /** The shipped cache settings: no stale answers, no prefetching. */
  const SHIPPED := Options(10000, 30 * SECOND, 3600 * SECOND, 30 * SECOND, 0, true, Prefetch(false, 30 * SECOND, 5))

  /** With them the cache stays clean whatever is banned and in use, unless refreshes are demanded. */
  lemma {:induction false} ShippedSettingsStayClean(c: Config)
    requires !c.demands
    ensures AlwaysClean(c, SHIPPED)
  {
    CacheStaysCleanIff(c, SHIPPED);
  }
}
