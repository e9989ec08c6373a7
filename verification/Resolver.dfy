/** The resolver itself: it adapts its order, then tries strategy after strategy. */
module Resolver {
  import opened Wrappers
  import opened Messages
  import opened HealthSpec
  import opened TrackerSpec
  import opened UpstreamSpec
  import opened ResolverSpec
  import opened ResolverLaws
  import opened CacheSpec
  import AnswerCache
  import Tracking
  import Upstream
  import Effect = TrackerSpec
  import Law = ResolverSpec

  /** The hot-reloadable settings; no order means the order stays. */
  datatype Settings = Settings(order: Option<seq<string>>, relaySet: bool, adaptive: bool)

  class Resolver {
    var order: seq<string>
    var relaySet: bool
    var adaptive: bool
    const cache: AnswerCache.Cache?
    const ban: Option<BanList>
    const health: Tracking.Tracker?

    constructor (order: seq<string>, relaySet: bool, adaptive: bool, cache: AnswerCache.Cache?, ban: Option<BanList>,
                 health: Tracking.Tracker?)
      ensures this.order == order && this.relaySet == relaySet && this.adaptive == adaptive
      ensures this.cache == cache && this.ban == ban && this.health == health
    {
      this.order, this.relaySet, this.adaptive := order, relaySet, adaptive;
      this.cache, this.ban, this.health := cache, ban, health;
    }

    method ApplyRuntime(s: Settings)
      modifies this
      ensures order == (if s.order.Some? then s.order.value else old(order))
      ensures relaySet == s.relaySet && adaptive == s.adaptive
    {
      if s.order.Some? {
        order := s.order.value;
      }
      relaySet, adaptive := s.relaySet, s.adaptive;
    }

    ghost function Cached(): Option<Held>
      reads cache, if cache == null then [] else cache.order
    {
      if cache == null then None else Some(Held(cache.View(), cache.Book()))
    }

    /** The cache is still sound; entries it has gained are new objects. */
    twostate predicate CacheKept()
      reads cache
    {
      cache != null ==>
        && cache.Valid()
        && forall j :: 0 <= j < |cache.order| ==> cache.order[j] in old(cache.order) || fresh(cache.order[j])
    }

    // ---------- the adapted order ----------

    method AdaptOrder(now: int) returns (out: seq<string>)
      requires health != null ==> health.Valid()
      modifies if health == null then {} else health.stats.Values
      ensures health != null ==> health.Valid() && health.stats == old(health.stats)
      ensures Upstream.ViewOf(health) == AdaptTouched(old(Upstream.ViewOf(health)), adaptive, order, now)
      ensures out == Adapted(old(Upstream.ViewOf(health)), adaptive, order, now)
    {
      if !adaptive || health == null {
        return order;
      }
      out := Reorder(health, order, now);
    }

    // ---------- resolving ----------

    method FromRecords(req: Query, w: World) returns (t: Turn)
      requires req.question != []
      ensures t == TurnOf(req, "records", 0, None, w).0
    {
      match w.records(req.question[0])
      case NoRecord => t := Declined;
      case BadRecord => t := Failed;
      case Records(answer) => t := Produced(SetReply(req).(sections := Sections(answer, [], [])));
    }

    method FromCache(req: Query, i: nat, w: World) returns (t: Turn, started: Option<RefreshReason>)
      requires req.question != [] && (cache != null ==> cache.Valid())
      modifies cache, if cache == null then [] else cache.order
      ensures CacheKept() && (t, Cached()) == TurnOf(req, "cache", i, old(Cached()), w)
      ensures started == StartedBy(req, "cache", i, old(Cached()), w)
    {
      if cache == null {
        return Declined, None;
      }
      var reply;
      reply, started := cache.Get(req, KeyOf(req.question[0]), w.at(i));
      t := if reply.Some? then Produced(reply.value) else Declined;
    }

    /** One strategy's turn. */
    method TakeTurn(req: Query, strategy: string, i: nat, w: World) returns (t: Turn, started: Option<RefreshReason>)
      requires req.question != [] && (cache != null ==> cache.Valid()) && w.relaySet == relaySet
      modifies cache, if cache == null then [] else cache.order
      ensures CacheKept() && (t, Cached()) == TurnOf(req, strategy, i, old(Cached()), w)
      ensures started == StartedBy(req, strategy, i, old(Cached()), w)
    {
      started := None;
      if strategy == "records" {
        t := FromRecords(req, w);
      } else if strategy == "cache" {
        t, started := FromCache(req, i, w);
      } else if strategy == "relay" && !relaySet {
        t := Skipped;
      } else if IsUpstream(strategy) {
        var sections := w.brings(strategy, i);
        t := if sections.None? then Failed else Produced(Restamp(sections.value, req));
      } else {
        t := Skipped;
      }
    }

    method Keep(req: Query, msg: Msg, i: nat, w: World)
      requires req.question != [] && (cache != null ==> cache.Valid())
      modifies cache, if cache == null then [] else cache.order
      ensures CacheKept() && Cached() == Remember(old(Cached()), req, msg, w, i)
    {
      if cache != null {
        cache.Store(KeyOf(req.question[0]), msg.sections.answer, w.pack(msg), false, w.at(i));
      }
    }

    /** Whether a turn settles the query; if so an upstream's answer is stored. */
    method Settle(req: Query, strategy: string, t: Turn, i: nat, w: World) returns (settled: bool)
      requires req.question != [] && (cache != null ==> cache.Valid())
      requires IsUpstream(strategy) || strategy == "cache" || strategy == "records" || !t.Produced?
      modifies cache, if cache == null then [] else cache.order
      ensures CacheKept() && settled == Usable(ban, t)
      ensures Cached() == if settled && IsUpstream(strategy)
                          then Remember(old(Cached()), req, t.msg, w, i)
                          else old(Cached())
    {
      if !t.Produced? {
        return false;
      }
      var bad := ContainsAnswer(ban, t.msg.sections);
      if bad.Some? {
        return false;
      }
      if strategy != "cache" && strategy != "records" {
        Keep(req, t.msg, i, w);
      }
      return true;
    }

    /** One strategy's turn, and what comes of it. */
    method TryOne(req: Query, strategy: string, i: nat, w: World)
      returns (reply: Option<Msg>, started: Option<RefreshReason>)
      requires req.question != [] && (cache != null ==> cache.Valid()) && w.relaySet == relaySet
      modifies cache, if cache == null then [] else cache.order
      ensures CacheKept()
      ensures var (t, c) := TurnOf(req, strategy, i, old(Cached()), w);
              && reply == (if Usable(ban, t) then Some(t.msg) else None)
              && Cached() == if Usable(ban, t) && IsUpstream(strategy) then Remember(c, req, t.msg, w, i) else c
      ensures started == StartedBy(req, strategy, i, old(Cached()), w)
    {
      var t;
      t, started := TakeTurn(req, strategy, i, w);
      var settled := Settle(req, strategy, t, i, w);
      reply := if settled then Some(t.msg) else None;
    }

    /** The loop over the strategies. */
    method TryAll(req: Query, strategies: seq<string>, w: World)
      returns (msg: Msg, slot: Option<nat>, started: seq<RefreshReason>)
      requires req.question != [] && (cache != null ==> cache.Valid()) && w.relaySet == relaySet
      modifies cache, if cache == null then [] else cache.order
      ensures CacheKept()
      ensures Resolved(msg, slot, Cached(), started) == Walk(req, strategies, 0, old(Cached()), [], ban, w)
    {
      started := [];
      ghost var outcome := Walk(req, strategies, 0, Cached(), [], ban, w);
      for i := 0 to |strategies|
        invariant CacheKept()
        invariant outcome == Walk(req, strategies, i, Cached(), started, ban, w)
      {
        WalkTurn(req, strategies, i, Cached(), started, ban, w);
        var reply, more := TryOne(req, strategies[i], i, w);
        started := started + AsList(more);
        if reply.Some? {
          return reply.value, Some(i), started;
        }
      }
      return SetReply(req), None, started;
    }

    /** The reply, the slot that gave it, and the background refreshes that its lookups have set going. */
    method Resolve(req: Query, w: World, now: int)
      returns (msg: Msg, slot: Option<nat>, started: seq<RefreshReason>)
      requires (health != null ==> health.Valid()) && (cache != null ==> cache.Valid())
      modifies if health == null then {} else health.stats.Values
      modifies cache, if cache == null then [] else cache.order
      ensures (health != null ==> health.Valid()) && CacheKept()
      ensures Resolved(msg, slot, Cached(), started) ==
              Law.Resolve(req, Adapted(old(Upstream.ViewOf(health)), adaptive, order, now), old(Cached()), ban,
                          w.(relaySet := relaySet))
    {
      if req.question == [] {
        return SetReply(req), None, [];
      }
      var strategies := AdaptOrder(now);
      msg, slot, started := TryAll(req, strategies, w.(relaySet := relaySet));
    }

    /** What a background refresh asks: the first upstream reply, without records, cache or ban list. */
    method ResolveUpstreamOnly(req: Query, w: World) returns (reply: Option<Msg>)
      ensures reply == match UpstreamOnly(order, 0, relaySet, w.brings)
                       case None => None
                       case Some(sections) => Some(Restamp(sections, req))
    {
      for i := 0 to |order|
        invariant UpstreamOnly(order, 0, relaySet, w.brings) == UpstreamOnly(order, i, relaySet, w.brings)
      {
        if !IsUpstream(order[i]) || (order[i] == "relay" && !relaySet) {
          continue;
        }
        var sections := w.brings(order[i], i);
        if sections.Some? {
          return Some(Restamp(sections.value, req));
        }
      }
      return None;
    }
  }

  method Reorder(t: Tracking.Tracker, order: seq<string>, now: int) returns (out: seq<string>)
    requires t.Valid()
    modifies t.stats.Values
    ensures t.Valid() && t.stats == old(t.stats)
    ensures var upstream := UpstreamOf(order);
            && t.View() == (if |upstream| <= 1 then old(t.View())
                            else RefreshPaths(old(t.View()), PathSet(upstream), now))
            && out == if |upstream| <= 1 then order
               else Fill(order, Effect.OrderTransports(old(t.View()), upstream, now))
  {
    var upstream, upstreamIdx := CollectUpstream(order);
    if |upstream| <= 1 {
      return order;
    }
    ghost var was := t.View();
    var ranked := t.OrderTransports(upstream, now);
    SlotCount(order, 0);
    OrderTransportsPermutes(was, upstream, now);
    out := FillSlots(order, upstreamIdx, ranked);
  }

  /** The positions of the upstream strategies, for an order whose first slot has number i. */
  function SlotsFrom(order: seq<string>, i: nat): seq<nat> {
    if order == [] then [] else (if IsUpstream(order[0]) then [i] else []) + SlotsFrom(order[1..], i + 1)
  }

  method CollectUpstream(order: seq<string>) returns (upstream: seq<string>, idx: seq<nat>)
    ensures upstream == UpstreamOf(order) && idx == SlotsFrom(order, 0)
  {
    upstream, idx := [], [];
    for i := 0 to |order|
      invariant upstream + UpstreamOf(order[i..]) == UpstreamOf(order)
      invariant idx + SlotsFrom(order[i..], i) == SlotsFrom(order, 0)
    {
      assert order[i..][1..] == order[i + 1..];
      if IsUpstream(order[i]) {
        upstream, idx := upstream + [order[i]], idx + [i];
      }
    }
  }

  method FillSlots(order: seq<string>, idx: seq<nat>, ranked: seq<string>) returns (out: seq<string>)
    requires idx == SlotsFrom(order, 0) && |ranked| == |idx|
    ensures out == Fill(order, ranked)
  {
    out := order;
    ghost var p: nat := 0;
    for i := 0 to |idx|
      invariant PartlyFilled(order, idx, ranked, i, p, out)
    {
      FillOne(order, idx, ranked, i, p, out);
      out := out[idx[i] := ranked[i]];
      p := idx[i] + 1;
    }
    NoSlot(order[p..], p, ranked[|idx|..]);
  }

  /** The first i upstream slots are filled; all of them lie before p. */
  ghost predicate PartlyFilled(order: seq<string>, idx: seq<nat>, ranked: seq<string>, i: nat, p: nat, out: seq<string>)
    requires i <= |idx| == |ranked|
  {
    && p <= |order| == |out| && out[p..] == order[p..]
    && idx[i..] == SlotsFrom(order[p..], p)
    && out[..p] + Fill(order[p..], ranked[i..]) == Fill(order, ranked)
  }

  lemma FillOne(order: seq<string>, idx: seq<nat>, ranked: seq<string>, i: nat, p: nat, out: seq<string>)
    requires i < |idx| == |ranked| && PartlyFilled(order, idx, ranked, i, p, out)
    ensures p <= idx[i] < |order|
    ensures PartlyFilled(order, idx, ranked, i + 1, idx[i] + 1, out[idx[i] := ranked[i]])
  {
    FirstSlot(order, p);
    var q := idx[i];
    assert q == idx[i..][0] && idx[i..][1..] == idx[i + 1..];
    NextSlot(order, p, q, ranked[i..]);
    assert ranked[i..][1..] == ranked[i + 1..];
    WriteSlot(order, p, q, ranked[i], out, Fill(order[q + 1..], ranked[i + 1..]));
  }

  /** Writing slot q of a sequence that still reads as order from p on. */
  lemma WriteSlot(order: seq<string>, p: nat, q: nat, x: string, out: seq<string>, rest: seq<string>)
    requires p <= q < |order| == |out| && out[p..] == order[p..]
    ensures out[q := x][..q + 1] + rest == out[..p] + (order[p..q] + [x] + rest)
    ensures out[q := x][q + 1..] == order[q + 1..]
  {
    assert out[p..][..q - p] == order[p..][..q - p];
    assert out[p..][q - p + 1..] == order[p..][q - p + 1..];
  }

  lemma {:induction false} FirstSlot(order: seq<string>, p: nat)
    requires p <= |order| && SlotsFrom(order[p..], p) != []
    ensures var q := SlotsFrom(order[p..], p)[0];
            p <= q < |order| && SlotsFrom(order[q + 1..], q + 1) == SlotsFrom(order[p..], p)[1..]
    decreases |order| - p
  {
    assert order[p..][1..] == order[p + 1..];
    if !IsUpstream(order[p]) {
      FirstSlot(order, p + 1);
    }
  }

  lemma OnePlaceBack(s: seq<string>, p: nat, q: nat, x: string, rest: seq<string>)
    requires p < q <= |s|
    ensures [s[p]] + (s[p + 1..q] + [x] + rest) == s[p..q] + [x] + rest
  {
    assert [s[p]] + s[p + 1..q] == s[p..q];
  }

  /** Filling goes on behind the first upstream slot. */
  lemma {:induction false} NextSlot(order: seq<string>, p: nat, q: nat, ranked: seq<string>)
    requires p <= q < |order| && SlotsFrom(order[p..], p) != [] && SlotsFrom(order[p..], p)[0] == q && ranked != []
    ensures Fill(order[p..], ranked) == order[p..q] + [ranked[0]] + Fill(order[q + 1..], ranked[1..])
    decreases q - p
  {
    assert order[p..][1..] == order[p + 1..];
    if !IsUpstream(order[p]) {
      FirstSlot(order, p + 1);
      NextSlot(order, p + 1, q, ranked);
      OnePlaceBack(order, p, q, ranked[0], Fill(order[q + 1..], ranked[1..]));
    }
  }

  lemma {:induction false} NoSlot(s: seq<string>, p: nat, ranked: seq<string>)
    requires SlotsFrom(s, p) == []
    ensures Fill(s, ranked) == s
  {
    if s != [] {
      NoSlot(s[1..], p + 1, ranked);
    }
  }

  lemma {:induction false} SlotCount(order: seq<string>, p: nat)
    ensures |SlotsFrom(order, p)| == |UpstreamOf(order)|
  {
    if order != [] {
      SlotCount(order[1..], p + 1);
    }
  }
}
