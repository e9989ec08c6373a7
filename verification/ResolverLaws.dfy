/**
 Laws of the resolver: adapting the order loses no answer, an answer is found again in the cache,
 the cache stays free of banned answers, and exactly when the refresh path keeps it so.
*/
module ResolverLaws {
  import opened Wrappers
  import opened Messages
  import opened Keys
  import opened HealthSpec
  import opened TrackerSpec
  import opened UpstreamSpec
  import opened CacheSpec
  import opened ResolverSpec
  import CacheRuns
  import Spec = CacheSpec

  // ---------- adapting loses no answer ----------

  /** What an upstream yields does not depend on the slot it is called in. */
  ghost predicate SteadyUpstreams(w: World, gives: string -> Option<Sections>) {
    forall s, i :: w.brings(s, i) == gives(s)
  }

  predicate UpstreamUsable(ban: Option<BanList>, w: World, gives: string -> Option<Sections>, strategy: string) {
    IsUpstream(strategy) && !(strategy == "relay" && !w.relaySet) && gives(strategy).Some?
    && BanFree(ban, gives(strategy).value)
  }

  /** No slot from i on that is not an upstream's yields anything usable. */
  predicate LocalsFail(req: Query, order: seq<string>, i: nat, c: Option<Held>, ban: Option<BanList>, w: World)
    requires req.question != [] && i <= |order|
    decreases |order| - i
  {
    i < |order| ==>
      if IsUpstream(order[i]) then LocalsFail(req, order, i + 1, c, ban, w)
      else
        var (t, c') := TurnOf(req, order[i], i, c, w);
        !Usable(ban, t) && LocalsFail(req, order, i + 1, c', ban, w)
  }

  lemma {:induction false} WalkFailsIff(req: Query, order: seq<string>, i: nat, c: Option<Held>,
                                        begun: seq<RefreshReason>,
                                        ban: Option<BanList>, w: World, gives: string -> Option<Sections>)
    requires req.question != [] && i <= |order| && SteadyUpstreams(w, gives)
    ensures Walk(req, order, i, c, begun, ban, w).slot.None? <==>
            LocalsFail(req, order, i, c, ban, w)
            && forall j :: i <= j < |order| ==> !UpstreamUsable(ban, w, gives, order[j])
    decreases |order| - i
  {
    if i < |order| {
      var (t, c') := TurnOf(req, order[i], i, c, w);
      if IsUpstream(order[i]) {
        assert w.brings(order[i], i) == gives(order[i]);
        assert Usable(ban, t) <==> UpstreamUsable(ban, w, gives, order[i]);
      }
      if !Usable(ban, t) {
        WalkFailsIff(req, order, i + 1, c', begun + AsList(StartedBy(req, order[i], i, c, w)), ban, w, gives);
      }
    }
  }

  lemma {:induction false} LocalsFailAlike(req: Query, order: seq<string>, other: seq<string>, i: nat, c: Option<Held>,
                                           ban: Option<BanList>, w: World)
    requires req.question != [] && i <= |order| == |other|
    requires forall j :: 0 <= j < |order| ==> IsUpstream(other[j]) == IsUpstream(order[j])
    requires forall j :: 0 <= j < |order| && !IsUpstream(order[j]) ==> other[j] == order[j]
    ensures LocalsFail(req, order, i, c, ban, w) == LocalsFail(req, other, i, c, ban, w)
    decreases |order| - i
  {
    if i < |order| {
      if IsUpstream(order[i]) {
        LocalsFailAlike(req, order, other, i + 1, c, ban, w);
      } else {
        LocalsFailAlike(req, order, other, i + 1, TurnOf(req, order[i], i, c, w).1, ban, w);
      }
    }
  }

  lemma SameUpstreams(order: seq<string>, other: seq<string>, ban: Option<BanList>, w: World,
                      gives: string -> Option<Sections>)
    requires multiset(order) == multiset(other)
    requires forall j :: 0 <= j < |order| ==> !UpstreamUsable(ban, w, gives, order[j])
    ensures forall j :: 0 <= j < |other| ==> !UpstreamUsable(ban, w, gives, other[j])
  {
    forall j | 0 <= j < |other|
      ensures !UpstreamUsable(ban, w, gives, other[j])
    {
      assert other[j] in multiset(other);
      assert other[j] in order;
    }
  }

  /** With steady upstreams, the adapted order fails on a query exactly when the configured order does. */
  lemma AdaptingLosesNoAnswer(req: Query, order: seq<string>, h: HealthView, adaptive: bool, now: int, c: Option<Held>,
                              ban: Option<BanList>, w: World, gives: string -> Option<Sections>)
    requires SteadyUpstreams(w, gives)
    ensures Resolve(req, Adapted(h, adaptive, order, now), c, ban, w).slot.None?
            <==> Resolve(req, order, c, ban, w).slot.None?
  {
    if req.question != [] {
      var out := Adapted(h, adaptive, order, now);
      AdaptedKeepsSlots(h, adaptive, order, now);
      WalkFailsIff(req, order, 0, c, [], ban, w, gives);
      WalkFailsIff(req, out, 0, c, [], ban, w, gives);
      LocalsFailAlike(req, order, out, 0, c, ban, w);
      if forall j :: 0 <= j < |order| ==> !UpstreamUsable(ban, w, gives, order[j]) {
        SameUpstreams(order, out, ban, w, gives);
      }
      if forall j :: 0 <= j < |out| ==> !UpstreamUsable(ban, w, gives, out[j]) {
        SameUpstreams(out, order, ban, w, gives);
      }
    }
  }

  // ---------- a clean cache ----------

  predicate CleanLine(ban: Option<BanList>, x: Line) {
    x.packed.decoded.Some? ==> BanFree(ban, x.packed.decoded.value)
  }

  /** No entry holds a banned address. */
  ghost predicate Clean(ban: Option<BanList>, s: State) {
    forall x :: x in s.lines ==> CleanLine(ban, x)
  }

  ghost predicate CleanCache(ban: Option<BanList>, c: Option<Held>) {
    c.Some? ==> Clean(ban, c.value.state)
  }

  /** Unpacking a packed message yields its sections or nothing. */
  ghost predicate Faithful(pack: Msg -> Option<Packed>) {
    forall m :: pack(m).Some? && pack(m).value.decoded.Some? ==> pack(m).value.decoded.value == m.sections
  }

  lemma {:induction false} WithoutWithin(lines: seq<Line>, k: string)
    ensures forall x :: x in Without(lines, k) ==> x in lines
  {
    if lines != [] {
      WithoutWithin(lines[1..], k);
    }
  }

  lemma GetKeepsClean(ban: Option<BanList>, s: State, k: string, now: int)
    requires Clean(ban, s)
    ensures Clean(ban, Spec.Get(s, k, now).after)
  {
    FindKey(s.lines, k);
    WithoutWithin(s.lines, k);
    if Find(s.lines, k).Some? {
      assert CleanLine(ban, Find(s.lines, k).value);
    }
  }

  lemma PutKeepsClean(ban: Option<BanList>, s: State, x: Line)
    requires Clean(ban, s) && CleanLine(ban, x)
    ensures Clean(ban, Put(s, x))
  {
    WithoutWithin(s.lines, x.key);
  }

  lemma StoreKeepsClean(ban: Option<BanList>, s: State, k: string, msg: Msg, pack: Msg -> Option<Packed>,
                        fromPrefetch: bool, now: int)
    requires Clean(ban, s) && Faithful(pack) && BanFree(ban, msg.sections)
    ensures Clean(ban, Spec.Store(s, k, msg.sections.answer, pack(msg), fromPrefetch, now))
  {
    if Effective(s.opts, msg.sections.answer, pack(msg)) {
      PutKeepsClean(ban, s, Line(k, pack(msg).value, now + ClampedTTL(s.opts, msg.sections.answer), 0, fromPrefetch));
    }
  }

  lemma {:induction false} WalkKeepsClean(req: Query, order: seq<string>, i: nat, c: Option<Held>,
                                          begun: seq<RefreshReason>, ban: Option<BanList>, w: World)
    requires req.question != [] && i <= |order| && CleanCache(ban, c) && Faithful(w.pack)
    ensures CleanCache(ban, Walk(req, order, i, c, begun, ban, w).cache)
    decreases |order| - i
  {
    if i < |order| {
      var (t, c') := TurnOf(req, order[i], i, c, w);
      assert CleanCache(ban, c') by {
        if c.Some? {
          GetKeepsClean(ban, c.value.state, KeyOf(req.question[0]), w.at(i));
        }
      }
      if !Usable(ban, t) {
        WalkKeepsClean(req, order, i + 1, c', begun + AsList(StartedBy(req, order[i], i, c, w)), ban, w);
      } else if IsUpstream(order[i]) && c'.Some? {
        StoreKeepsClean(ban, c'.value.state, KeyOf(req.question[0]), t.msg, w.pack, false, w.at(i));
      }
    }
  }

  /** Resolving never puts a banned answer into a clean cache, whatever the upstreams bring. */
  lemma ResolveKeepsClean(req: Query, order: seq<string>, c: Option<Held>, ban: Option<BanList>, w: World)
    requires CleanCache(ban, c) && Faithful(w.pack)
    ensures CleanCache(ban, Resolve(req, order, c, ban, w).cache)
  {
    if req.question != [] {
      WalkKeepsClean(req, order, 0, c, [], ban, w);
    }
  }

  // ---------- an answer is found again ----------

  lemma {:induction false} CacheAtOptions(req: Query, order: seq<string>, c: Option<Held>, w: World, i: nat)
    requires req.question != [] && i <= |order| && c.Some?
    ensures CacheAt(req, order, c, w, i).Some? && CacheAt(req, order, c, w, i).value.state.opts == c.value.state.opts
  {
    if i > 0 {
      CacheAtOptions(req, order, c, w, i - 1);
    }
  }

  /**
   Once an upstream has answered, the same question is answered from the cache with the same sections,
   under the new query's own Id, as long as the stored lifetime lasts and nothing else happens in between.
  */
  lemma AnswerIsCached(req: Query, order: seq<string>, c: Option<Held>, ban: Option<BanList>, w: World,
                       again: Query, order': seq<string>, w': World)
    requires c.Some? && c.value.state.opts.maxEntries > 0
    requires var r := Resolve(req, order, c, ban, w);
             && r.slot.Some? && r.slot.value < |order| && IsUpstream(order[r.slot.value])
             && w.pack(r.msg) == Some(Packed(Some(r.msg.sections)))
             && ClampedTTL(c.value.state.opts, r.msg.sections.answer) > 0
             && w'.at(0) <= w.at(r.slot.value) + ClampedTTL(c.value.state.opts, r.msg.sections.answer)
    requires req.question != [] && again.question != [] && again.question[0] == req.question[0]
    requires order' != [] && order'[0] == "cache"
    ensures var r, r' := Resolve(req, order, c, ban, w),
                         Resolve(again, order', Resolve(req, order, c, ban, w).cache, ban, w');
            r'.slot == Some(0) && r'.msg == Restamp(r.msg.sections, again)
  {
    var r := Resolve(req, order, c, ban, w);
    ResolveSound(req, order, c, ban, w);
    var s := r.slot.value;
    CacheAtOptions(req, order, c, w, s + 1);
    var held := CacheAt(req, order, c, w, s + 1).value;
    var before := held.state;
    var k := KeyOf(req.question[0]);
    var x := Line(k, Packed(Some(r.msg.sections)), w.at(s) + ClampedTTL(before.opts, r.msg.sections.answer), 0, false);
    CacheRuns.FindAfterPut(before, x, k);
    assert r.cache == Some(held.(state := Put(before, x)));
  }

  // ---------- the refresh path ----------

  /** A strategy that gets called at all; a relay that is not set up is skipped. */
  predicate Attempted(strategy: string, relaySet: bool) {
    IsUpstream(strategy) && !(strategy == "relay" && !relaySet)
  }

  /** ResolveUpstreamOnly: the first upstream reply, as it comes. */
  function UpstreamOnly(order: seq<string>, i: nat, relaySet: bool, brings: Upstreams): Option<Sections>
    requires i <= |order|
    decreases |order| - i
  {
    if i == |order| then None
    else if Attempted(order[i], relaySet) && brings(order[i], i).Some? then brings(order[i], i)
    else UpstreamOnly(order, i + 1, relaySet, brings)
  }

  /** An upstream that can reply: one with a client, and with servers for that client to ask. */
  predicate InUse(strategy: string, equipped: set<string>) {
    IsUpstream(strategy) && strategy in equipped
  }

  /** Only equipped upstreams ever reply. */
  ghost predicate OnlyEquipped(equipped: set<string>, brings: Upstreams) {
    forall s, i :: brings(s, i).Some? ==> s in equipped
  }

  /** The plain client refuses banned answers by itself. */
  ghost predicate PlainFilters(ban: Option<BanList>, brings: Upstreams) {
    forall i :: brings("plain", i).Some? ==> BanFree(ban, brings("plain", i).value)
  }

  predicate OnlyPlain(order: seq<string>, equipped: set<string>) {
    forall i :: 0 <= i < |order| && InUse(order[i], equipped) ==> order[i] == "plain"
  }

  ghost predicate BansSomething(ban: Option<BanList>) {
    ban.Some? && exists ip, i :: 0 <= i < |ban.value.nets| && ip in ban.value.nets[i]
  }

  ghost predicate ReplyAlwaysClean(order: seq<string>, equipped: set<string>, ban: Option<BanList>) {
    forall brings :: PlainFilters(ban, brings) && OnlyEquipped(equipped, brings) ==>
      var reply := UpstreamOnly(order, 0, "relay" in equipped, brings);
      reply.Some? ==> BanFree(ban, reply.value)
  }

  lemma {:induction false} OnlyPlainIsClean(order: seq<string>, i: nat, equipped: set<string>, ban: Option<BanList>,
                                            brings: Upstreams)
    requires i <= |order| && OnlyPlain(order, equipped)
    requires PlainFilters(ban, brings) && OnlyEquipped(equipped, brings)
    ensures var reply := UpstreamOnly(order, i, "relay" in equipped, brings);
            reply.Some? ==> BanFree(ban, reply.value)
    decreases |order| - i
  {
    if i < |order| {
      OnlyPlainIsClean(order, i + 1, equipped, ban, brings);
    }
  }

  lemma {:induction false} Reaches(order: seq<string>, i: nat, j: nat, relaySet: bool, brings: Upstreams)
    requires i <= j < |order| && Attempted(order[j], relaySet) && brings(order[j], j).Some?
    requires forall l :: i <= l < j ==> brings(order[l], l).None?
    ensures UpstreamOnly(order, i, relaySet, brings) == brings(order[j], j)
    decreases j - i
  {
    if i < j {
      Reaches(order, i + 1, j, relaySet, brings);
    }
  }

  /** An upstream in use other than plain can make the refresh path return a banned answer. */
  lemma OthersCanPoison(order: seq<string>, equipped: set<string>, ban: Option<BanList>, j: nat)
    returns (brings: Upstreams, poison: Sections)
    requires BansSomething(ban) && j < |order| && InUse(order[j], equipped) && order[j] != "plain"
    ensures PlainFilters(ban, brings) && OnlyEquipped(equipped, brings)
    ensures UpstreamOnly(order, 0, "relay" in equipped, brings) == Some(poison) && !BanFree(ban, poison)
    ensures |poison.answer| == 1 && poison.answer[0].ttl == 60
  {
    var ip, i :| 0 <= i < |ban.value.nets| && ip in ban.value.nets[i];
    poison := Sections([Addr(Some(ip), 60)], [], []);
    brings := (s, n) => if n == j && s == order[j] then Some(poison) else None;
    assert Banned(ban.value, poison.answer[0]);
    Reaches(order, 0, j, "relay" in equipped, brings);
  }

  /**
   Exactly when the reply of the refresh path, which does not look at the ban list, is never a banned
   one: when nothing is banned, or plain is the only upstream in use.
  */
  lemma RefreshReplyCleanIff(order: seq<string>, equipped: set<string>, ban: Option<BanList>)
    ensures ReplyAlwaysClean(order, equipped, ban) <==> !BansSomething(ban) || OnlyPlain(order, equipped)
  {
    if BansSomething(ban) && !OnlyPlain(order, equipped) {
      var j :| 0 <= j < |order| && InUse(order[j], equipped) && order[j] != "plain";
      var brings, poison := OthersCanPoison(order, equipped, ban, j);
    } else {
      forall brings | PlainFilters(ban, brings) && OnlyEquipped(equipped, brings)
        ensures var reply := UpstreamOnly(order, 0, "relay" in equipped, brings);
                reply.Some? ==> BanFree(ban, reply.value)
      {
        if OnlyPlain(order, equipped) {
          OnlyPlainIsClean(order, 0, equipped, ban, brings);
        }
      }
    }
  }

  /**
   Storing a reply without looking at the ban list keeps a clean cache clean exactly when the reply is clean
   or not kept.
  */
  lemma UncheckedStoreCleanIff(ban: Option<BanList>, s: State, k: string, msg: Msg, fromPrefetch: bool, now: int)
    requires Clean(ban, s) && s.opts.maxEntries > 0
    ensures var packed := Some(Packed(Some(msg.sections)));
            Clean(ban, Spec.Store(s, k, msg.sections.answer, packed, fromPrefetch, now))
            <==> BanFree(ban, msg.sections) || ClampedTTL(s.opts, msg.sections.answer) <= 0
  {
    var packed := Packed(Some(msg.sections));
    if ClampedTTL(s.opts, msg.sections.answer) > 0 {
      var x := Line(k, packed, now + ClampedTTL(s.opts, msg.sections.answer), 0, fromPrefetch);
      if BanFree(ban, msg.sections) {
        PutKeepsClean(ban, s, x);
      } else {
        CacheRuns.FindAfterPut(s, x, k);
        FindKey(Put(s, x).lines, k);
        assert !CleanLine(ban, Find(Put(s, x).lines, k).value);
      }
    }
  }
}
