/**
 What a query's client receives, strategy by strategy: the reply is that of the first slot whose local record,
 cached entry or upstream has one without a banned address (FirstToGive), told in terms of the records, the
 entries and the upstreams alone.
*/
module StrategyLaws {
  import opened Wrappers
  import opened Messages
  import opened HealthSpec
  import opened TrackerSpec
  import opened UpstreamSpec
  import opened CacheSpec
  import opened ResolverSpec
  import opened ResolverLaws

  /** What a slot has to give: a local record, an entry still to be served, or an upstream's reply. */
  ghost predicate Gives(req: Query, strategy: string, i: nat, c: Option<Held>, w: World, sections: Sections)
    requires req.question != []
  {
    || (strategy == "records" && LocalAnswer(w.records(req.question[0]), sections))
    || (strategy == "cache" && c.Some? && CachedAnswer(c.value.state, req.question[0], w.at(i), sections))
    || (strategy in {"doh", "dot", "plain"} && w.brings(strategy, i) == Some(sections))
    || (strategy == "relay" && w.relaySet && w.brings("relay", i) == Some(sections))
  }

  /** A local record answers in the Answer section alone. */
  predicate LocalAnswer(local: Local, sections: Sections) {
    local.Records? && sections == Sections(local.answer, [], [])
  }

  /** The entry under the question's name and type unpacks to these sections and can still be served. */
  predicate CachedAnswer(s: State, q: Question, now: int, sections: Sections) {
    var x := Find(s.lines, q.name + "|" + q.qtype);
    && x.Some? && x.value.packed.decoded == Some(sections)
    && now - x.value.expireAt <= if s.opts.canRefresh && s.opts.staleMaxAge > 0 then s.opts.staleMaxAge else 0
  }

  /** The reply to this request made of these sections. */
  function ReplyTo(req: Query, sections: Sections): Msg
    requires req.question != []
  {
    Msg(req.id, [req.question[0]], sections)
  }

  /** A slot's turn yields a message exactly where the slot has something to give, and then that. */
  lemma TurnGives(req: Query, strategy: string, i: nat, c: Option<Held>, w: World, sections: Sections)
    requires req.question != []
    ensures TurnOf(req, strategy, i, c, w).0 == Produced(ReplyTo(req, sections))
            <==> Gives(req, strategy, i, c, w, sections)
  {}

  /** A usable turn is that of a slot with something ban-free to give. */
  lemma UsableGives(req: Query, strategy: string, i: nat, c: Option<Held>, ban: Option<BanList>, w: World)
    requires req.question != []
    ensures Usable(ban, TurnOf(req, strategy, i, c, w).0) <==> GivesClean(req, strategy, i, c, ban, w)
  {
    var t := TurnOf(req, strategy, i, c, w).0;
    forall sections
      ensures Gives(req, strategy, i, c, w, sections) <==> t == Produced(ReplyTo(req, sections))
      ensures HoldsBanned(ban, sections) <==> !BanFree(ban, sections)
    {
      TurnGives(req, strategy, i, c, w, sections);
      HoldsBannedIff(ban, sections);
    }
    if t.Produced? {
      assert t == Produced(ReplyTo(req, t.msg.sections));
    }
  }

  ghost predicate GivesClean(req: Query, strategy: string, i: nat, c: Option<Held>, ban: Option<BanList>, w: World)
    requires req.question != []
  {
    exists sections :: Gives(req, strategy, i, c, w, sections) && !HoldsBanned(ban, sections)
  }

  /**
   The reply is that of the first slot with something ban-free to give, under the query's own Id and
   question; SERVFAIL, an empty one, where no slot has.
  */
  lemma FirstToGive(req: Query, order: seq<string>, c: Option<Held>, ban: Option<BanList>, w: World)
    requires req.question != []
    ensures var r := Resolve(req, order, c, ban, w);
            && (r.slot.None? <==> forall j :: 0 <= j < |order| ==> !GivesAt(req, order, c, ban, w, j))
            && (r.slot.None? ==> r.msg == ReplyTo(req, Sections([], [], [])))
            && (r.slot.Some? ==>
                  && r.slot.value < |order| && r.msg == ReplyTo(req, r.msg.sections)
                  && Gives(req, order[r.slot.value], r.slot.value, CacheAt(req, order, c, w, r.slot.value), w,
                           r.msg.sections)
                  && !HoldsBanned(ban, r.msg.sections)
                  && forall j :: 0 <= j < r.slot.value ==> !GivesAt(req, order, c, ban, w, j))
  {
    ResolveSound(req, order, c, ban, w);
    var r := Resolve(req, order, c, ban, w);
    forall j | 0 <= j < |order|
      ensures GivesAt(req, order, c, ban, w, j) <==> Usable(ban, TurnAt(req, order, c, w, j))
    {
      UsableGives(req, order[j], j, CacheAt(req, order, c, w, j), ban, w);
    }
    if r.slot.Some? {
      var s := r.slot.value;
      TurnGives(req, order[s], s, CacheAt(req, order, c, w, s), w, r.msg.sections);
      HoldsBannedIff(ban, r.msg.sections);
    }
  }

  ghost predicate GivesAt(req: Query, order: seq<string>, c: Option<Held>, ban: Option<BanList>, w: World, j: nat)
    requires req.question != [] && j < |order|
  {
    GivesClean(req, order[j], j, CacheAt(req, order, c, w, j), ban, w)
  }

  // ---------- the refresh that a lookup begins ----------

  /**
   A lookup that begins a refresh books it: no later lookup for the question begins another within five
   seconds. One that begins none leaves the bookkeeping as it is.
  */
  lemma LookupBooks(req: Query, i: nat, held: Held, w: World, again: Query, j: nat, w': World)
    requires req.question != [] && again.question != [] && again.question[0] == req.question[0]
    ensures TurnOf(req, "cache", i, Some(held), w).1.Some?
    ensures var after := TurnOf(req, "cache", i, Some(held), w).1.value;
            if StartedBy(req, "cache", i, Some(held), w).None? then after.book == held.book
            else w'.at(j) - w.at(i) < 5_000_000_000 ==> StartedBy(again, "cache", j, Some(after), w').None?
  {}

  // ---------- what adapting moves ----------

  /** Adapting exchanges relay, doh, dot and plain among their own slots and leaves every other slot alone. */
  lemma AdaptingMovesUpstreams(h: HealthView, adaptive: bool, order: seq<string>, now: int, i: nat)
    requires i < |order|
    ensures var out := Adapted(h, adaptive, order, now);
            && multiset(out) == multiset(order) && |out| == |order|
            && if order[i] in {"relay", "doh", "dot", "plain"} then out[i] in {"relay", "doh", "dot", "plain"}
               else out[i] == order[i]
  {
    AdaptedKeepsSlots(h, adaptive, order, now);
  }

  // ---------- what a refresh fetches ----------

  /** The reply of a strategy as a refresh meets it. */
  predicate Fetches(strategy: string, i: nat, relaySet: bool, brings: Upstreams) {
    (strategy in {"doh", "dot", "plain"} || (strategy == "relay" && relaySet)) && brings(strategy, i).Some?
  }

  /** A refresh fetches the reply of the first strategy in the configured order that has one, as it comes. */
  lemma {:induction false} FirstToFetch(order: seq<string>, i: nat, relaySet: bool, brings: Upstreams)
    requires i <= |order|
    ensures match UpstreamOnly(order, i, relaySet, brings)
            case None => forall j :: i <= j < |order| ==> !Fetches(order[j], j, relaySet, brings)
            case Some(sections) =>
              exists j :: i <= j < |order| && Fetches(order[j], j, relaySet, brings)
                          && brings(order[j], j).value == sections
                          && forall l :: i <= l < j ==> !Fetches(order[l], l, relaySet, brings)
    decreases |order| - i
  {
    if i < |order| && !Fetches(order[i], i, relaySet, brings) {
      FirstToFetch(order, i + 1, relaySet, brings);
    }
  }
}
