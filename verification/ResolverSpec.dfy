/**
 How the resolver reorders its strategies and walks through them, as functions of the cache, the
 records, the tracked health and what the upstreams bring. Main results: adapting the order moves
 upstream strategies among their own slots only (AdaptedKeepsSlots); a query fails only when every
 strategy refused it and is otherwise answered, ban-free, by the first that did not (ResolveSound);
 resolving keeps the cache free of banned answers (ResolverLaws.ResolveKeepsClean), while refreshes do
 so only in the configurations that CleanRuns.CacheStaysCleanIff names.
*/
module ResolverSpec {
  import opened Wrappers
  import opened Messages
  import opened Keys
  import opened HealthSpec
  import opened TrackerSpec
  import opened UpstreamSpec
  import opened CacheSpec
  import Effect = TrackerSpec
  import Spec = CacheSpec
  import Refresh = RefreshSpec

  predicate IsUpstream(strategy: string) {
    strategy == "relay" || strategy == "doh" || strategy == "dot" || strategy == "plain"
  }

  // ---------- the adapted order ----------

  function UpstreamOf(order: seq<string>): seq<string> {
    if order == [] then []
    else (if IsUpstream(order[0]) then [order[0]] else []) + UpstreamOf(order[1..])
  }

  /** The order with its upstream slots filled, left to right, from ranked. */
  function Fill(order: seq<string>, ranked: seq<string>): seq<string> {
    if order == [] then []
    else if IsUpstream(order[0]) && ranked != [] then [ranked[0]] + Fill(order[1..], ranked[1..])
    else [order[0]] + Fill(order[1..], ranked)
  }

  ghost function Adapted(h: HealthView, adaptive: bool, order: seq<string>, now: int): seq<string> {
    if !adaptive || h.None? || |UpstreamOf(order)| <= 1 then order
    else Fill(order, Effect.OrderTransports(h.value, UpstreamOf(order), now))
  }

  ghost function AdaptTouched(h: HealthView, adaptive: bool, order: seq<string>, now: int): HealthView {
    if !adaptive || h.None? || |UpstreamOf(order)| <= 1 then h
    else Some(RefreshPaths(h.value, PathSet(UpstreamOf(order)), now))
  }

  lemma {:induction false} UpstreamOfAll(order: seq<string>)
    ensures forall s :: s in UpstreamOf(order) ==> IsUpstream(s) && s in order
  {
    if order != [] {
      UpstreamOfAll(order[1..]);
    }
  }

  lemma {:induction false} FillKeepsSlots(order: seq<string>, ranked: seq<string>)
    requires |ranked| == |UpstreamOf(order)| && forall s :: s in ranked ==> IsUpstream(s)
    ensures |Fill(order, ranked)| == |order|
    ensures forall i :: 0 <= i < |order| ==> IsUpstream(Fill(order, ranked)[i]) == IsUpstream(order[i])
    ensures forall i :: 0 <= i < |order| && !IsUpstream(order[i]) ==> Fill(order, ranked)[i] == order[i]
    ensures UpstreamOf(Fill(order, ranked)) == ranked
  {
    if order != [] {
      if IsUpstream(order[0]) {
        FillKeepsSlots(order[1..], ranked[1..]);
        assert Fill(order, ranked)[1..] == Fill(order[1..], ranked[1..]);
      } else {
        FillKeepsSlots(order[1..], ranked);
        assert Fill(order, ranked)[1..] == Fill(order[1..], ranked);
      }
    }
  }

  lemma {:induction false} FillCounts(order: seq<string>, ranked: seq<string>, s: string)
    requires |ranked| == |UpstreamOf(order)|
    ensures multiset(Fill(order, ranked))[s] + multiset(UpstreamOf(order))[s]
            == multiset(order)[s] + multiset(ranked)[s]
  {
    if order != [] {
      FirstCounts(order, s);
      FirstCounts(Fill(order, ranked), s);
      if IsUpstream(order[0]) {
        FillCounts(order[1..], ranked[1..], s);
        FirstCounts(ranked, s);
        FirstCounts(UpstreamOf(order), s);
        assert Fill(order, ranked)[1..] == Fill(order[1..], ranked[1..]);
        assert UpstreamOf(order)[1..] == UpstreamOf(order[1..]);
      } else {
        FillCounts(order[1..], ranked, s);
        assert Fill(order, ranked)[1..] == Fill(order[1..], ranked);
        assert UpstreamOf(order) == UpstreamOf(order[1..]);
      }
    }
  }

  lemma FirstCounts(xs: seq<string>, s: string)
    requires xs != []
    ensures multiset(xs)[s] == (if xs[0] == s then 1 else 0) + multiset(xs[1..])[s]
  {
    assert xs == [xs[0]] + xs[1..];
  }

  /** Filling the upstream slots with a permutation of the upstream strategies. */
  lemma FillMeans(order: seq<string>, ranked: seq<string>)
    requires multiset(ranked) == multiset(UpstreamOf(order))
    ensures var out := Fill(order, ranked);
            && multiset(out) == multiset(order) && |out| == |order|
            && (forall i :: 0 <= i < |order| ==> IsUpstream(out[i]) == IsUpstream(order[i]))
            && (forall i :: 0 <= i < |order| && !IsUpstream(order[i]) ==> out[i] == order[i])
            && UpstreamOf(out) == ranked
  {
    assert |ranked| == |multiset(ranked)| == |UpstreamOf(order)|;
    UpstreamOfAll(order);
    forall s | s in ranked
      ensures IsUpstream(s)
    {
      assert s in multiset(ranked);
    }
    FillKeepsSlots(order, ranked);
    forall s
      ensures multiset(Fill(order, ranked))[s] == multiset(order)[s]
    {
      FillCounts(order, ranked, s);
    }
  }

  /**
   Adapting permutes the order, leaves every slot that is not an upstream's alone, and puts into the
   upstream slots, read left to right, exactly what OrderTransports makes of the upstream strategies.
  */
  lemma AdaptedKeepsSlots(h: HealthView, adaptive: bool, order: seq<string>, now: int)
    ensures var out := Adapted(h, adaptive, order, now);
            && multiset(out) == multiset(order) && |out| == |order|
            && (forall i :: 0 <= i < |order| ==> IsUpstream(out[i]) == IsUpstream(order[i]))
            && (forall i :: 0 <= i < |order| && !IsUpstream(order[i]) ==> out[i] == order[i])
            && (adaptive && h.Some? ==> UpstreamOf(out) == Effect.OrderTransports(h.value, UpstreamOf(order), now))
            && (!adaptive || h.None? ==> out == order)
  {
    if adaptive && h.Some? && |UpstreamOf(order)| > 1 {
      OrderTransportsPermutes(h.value, UpstreamOf(order), now);
      FillMeans(order, Effect.OrderTransports(h.value, UpstreamOf(order), now));
    }
  }

  // ---------- walking through the strategies ----------

  /** What the local records have to say about a question. */
  datatype Local = NoRecord | BadRecord | Records(answer: seq<RR>)

  /** What the upstream call of a strategy in a slot yields; None for an error. */
  type Upstreams = (string, nat) -> Option<Sections>

  /**
   Everything a resolution meets besides the cache: the records, whether a relay is set up, what the
   upstream calls yield, how messages pack, and the time at which slot i is served.
  */
  datatype World = World(
    records: Question -> Local,
    relaySet: bool,
    brings: Upstreams,
    pack: Msg -> Option<Packed>,
    at: nat -> int)

  datatype Turn = Skipped | Declined | Failed | Produced(msg: Msg)

  /** The cache as a resolution meets it: its entries and its refresh bookkeeping. */
  datatype Held = Held(state: State, book: Refresh.Book)

  function KeyOf(q: Question): string {
    Join(q.name, q.qtype)
  }

  /** Slot i's turn, and what it does to the cache by looking into it. */
  function TurnOf(req: Query, strategy: string, i: nat, c: Option<Held>, w: World): (Turn, Option<Held>)
    requires req.question != []
  {
    if strategy == "records" then
      (match w.records(req.question[0])
       case NoRecord => Declined
       case BadRecord => Failed
       case Records(answer) => Produced(SetReply(req).(sections := Sections(answer, [], []))),
       c)
    else if strategy == "cache" then
      if c.None? then (Declined, None)
      else
        var k := KeyOf(req.question[0]);
        var g := Spec.Get(c.value.state, k, w.at(i));
        (if g.outcome.Miss? then Declined else Produced(Restamp(g.outcome.sections, req)),
         Some(Held(g.after, if g.wants.Some? then Refresh.Trigger(c.value.book, k, w.at(i)) else c.value.book)))
    else if !IsUpstream(strategy) || (strategy == "relay" && !w.relaySet) then (Skipped, c)
    else
      (match w.brings(strategy, i)
       case None => Failed
       case Some(sections) => Produced(Restamp(sections, req)),
       c)
  }

  /** The background refresh that slot i's turn sets going. */
  function StartedBy(req: Query, strategy: string, i: nat, c: Option<Held>, w: World): Option<RefreshReason>
    requires req.question != []
  {
    if strategy != "cache" || c.None? then None
    else
      var k := KeyOf(req.question[0]);
      if Refresh.MayStart(c.value.book, k, w.at(i)) then Spec.Get(c.value.state, k, w.at(i)).wants else None
  }

  /** A turn that yields a message without banned addresses ends the walk. */
  predicate Usable(ban: Option<BanList>, t: Turn) {
    t.Produced? && BanFree(ban, t.msg.sections)
  }

  function Remember(c: Option<Held>, req: Query, msg: Msg, w: World, i: nat): Option<Held>
    requires req.question != []
  {
    if c.None? then None
    else Some(c.value.(state := Spec.Store(c.value.state, KeyOf(req.question[0]), msg.sections.answer, w.pack(msg),
                                           false, w.at(i))))
  }

  function AsList(r: Option<RefreshReason>): seq<RefreshReason> {
    if r.Some? then [r.value] else []
  }

  /**
   The reply, the slot that gave it, the cache afterwards, and the background refreshes that the lookups
   set going, all for the key of the question; slot None is the SERVFAIL reply.
  */
  datatype Resolved = Resolved(msg: Msg, slot: Option<nat>, cache: Option<Held>, started: seq<RefreshReason>)

  /** The walk from slot i on, with the refreshes begun before it. */
  function Walk(req: Query, order: seq<string>, i: nat, c: Option<Held>, begun: seq<RefreshReason>,
                ban: Option<BanList>, w: World): Resolved
    requires req.question != [] && i <= |order|
    decreases |order| - i
  {
    if i == |order| then Resolved(SetReply(req), None, c, begun)
    else
      var (t, c') := TurnOf(req, order[i], i, c, w);
      var started := begun + AsList(StartedBy(req, order[i], i, c, w));
      if Usable(ban, t) then
        Resolved(t.msg, Some(i), if IsUpstream(order[i]) then Remember(c', req, t.msg, w, i) else c', started)
      else Walk(req, order, i + 1, c', started, ban, w)
  }

  function Resolve(req: Query, order: seq<string>, c: Option<Held>, ban: Option<BanList>, w: World): Resolved {
    if req.question == [] then Resolved(SetReply(req), None, c, []) else Walk(req, order, 0, c, [], ban, w)
  }

  /** One turn of the walk: it ends here, or goes on with the next slot. */
  lemma WalkTurn(req: Query, order: seq<string>, i: nat, c: Option<Held>, begun: seq<RefreshReason>,
                 ban: Option<BanList>, w: World)
    requires req.question != [] && i < |order|
    ensures var (t, c') := TurnOf(req, order[i], i, c, w);
            var started := begun + AsList(StartedBy(req, order[i], i, c, w));
            Walk(req, order, i, c, begun, ban, w) ==
            if !Usable(ban, t) then Walk(req, order, i + 1, c', started, ban, w)
            else if IsUpstream(order[i]) then Resolved(t.msg, Some(i), Remember(c', req, t.msg, w, i), started)
            else Resolved(t.msg, Some(i), c', started)
  {}

  /** The cache as slot i finds it, if no earlier slot answered. */
  function CacheAt(req: Query, order: seq<string>, c: Option<Held>, w: World, i: nat): Option<Held>
    requires req.question != [] && i <= |order|
  {
    if i == 0 then c else TurnOf(req, order[i - 1], i - 1, CacheAt(req, order, c, w, i - 1), w).1
  }

  function TurnAt(req: Query, order: seq<string>, c: Option<Held>, w: World, i: nat): Turn
    requires req.question != [] && i < |order|
  {
    TurnOf(req, order[i], i, CacheAt(req, order, c, w, i), w).0
  }

  /** What the walk from slot i on ends with, told slot by slot. */
  ghost predicate EndsAt(req: Query, order: seq<string>, i: nat, c: Option<Held>, ban: Option<BanList>, w: World,
                         r: Resolved)
    requires req.question != [] && i <= |order|
  {
    match r.slot
    case None =>
      && r.msg == SetReply(req) && r.cache == CacheAt(req, order, c, w, |order|)
      && forall j :: i <= j < |order| ==> !Usable(ban, TurnAt(req, order, c, w, j))
    case Some(s) =>
      && i <= s < |order| && Usable(ban, TurnAt(req, order, c, w, s)) && r.msg == TurnAt(req, order, c, w, s).msg
      && (forall j :: i <= j < s ==> !Usable(ban, TurnAt(req, order, c, w, j)))
      && r.cache == if IsUpstream(order[s]) then Remember(CacheAt(req, order, c, w, s + 1), req, r.msg, w, s)
                    else CacheAt(req, order, c, w, s + 1)
  }

  lemma {:induction false} WalkMeans(req: Query, order: seq<string>, i: nat, c: Option<Held>, begun: seq<RefreshReason>,
                                     ban: Option<BanList>, w: World)
    requires req.question != [] && i <= |order|
    ensures EndsAt(req, order, i, c, ban, w, Walk(req, order, i, CacheAt(req, order, c, w, i), begun, ban, w))
    decreases |order| - i
  {
    if i < |order| && !Usable(ban, TurnAt(req, order, c, w, i)) {
      var started := begun + AsList(StartedBy(req, order[i], i, CacheAt(req, order, c, w, i), w));
      WalkMeans(req, order, i + 1, c, started, ban, w);
      OneEarlier(req, order, i, c, ban, w, Walk(req, order, i + 1, CacheAt(req, order, c, w, i + 1), started, ban, w));
    }
  }

  lemma OneEarlier(req: Query, order: seq<string>, i: nat, c: Option<Held>, ban: Option<BanList>, w: World, r: Resolved)
    requires req.question != [] && i < |order| && !Usable(ban, TurnAt(req, order, c, w, i))
    requires EndsAt(req, order, i + 1, c, ban, w, r)
    ensures EndsAt(req, order, i, c, ban, w, r)
  {}

  /**
   SERVFAIL comes out exactly when the query has no question or every strategy in the order declined,
   failed, was skipped or was rejected; otherwise the reply is that of the first strategy that did
   not, and it is ban-free. Only an upstream's reply is stored.
  */
  lemma ResolveSound(req: Query, order: seq<string>, c: Option<Held>, ban: Option<BanList>, w: World)
    ensures var r := Resolve(req, order, c, ban, w);
            && r.msg.id == req.id && r.msg.question == SetReply(req).question
            && (r.slot.None? <==> req.question == []
                                  || forall j :: 0 <= j < |order| ==> !Usable(ban, TurnAt(req, order, c, w, j)))
            && (r.slot.None? ==> r.msg == SetReply(req))
            && (req.question == [] ==> r.cache == c && r.started == [])
            && (r.slot.Some? ==>
                  var s := r.slot.value;
                  && req.question != [] && s < |order|
                  && TurnAt(req, order, c, w, s) == Produced(r.msg) && BanFree(ban, r.msg.sections)
                  && (forall j :: 0 <= j < s ==> !Usable(ban, TurnAt(req, order, c, w, j)))
                  && (!IsUpstream(order[s]) ==> r.cache == CacheAt(req, order, c, w, s + 1))
                  && (IsUpstream(order[s]) ==>
                        && w.brings(order[s], s) == Some(r.msg.sections)
                        && r.cache == Remember(CacheAt(req, order, c, w, s + 1), req, r.msg, w, s)))
  {
    if req.question != [] {
      WalkMeans(req, order, 0, c, [], ban, w);
    }
  }
}
