/**
 Over the runs of CleanRuns: what a cache slot answers a question with was handed to the cache for that very
 question, or loaded under its name and type (ServedForItsQuestion). No question is ever answered with what
 was stored for another one.
*/
module QuestionRuns {
  import opened Wrappers
  import opened Messages
  import opened Keys
  import opened CacheSpec
  import opened ResolverSpec
  import opened ResolverLaws
  import opened CleanRuns
  import Spec = CacheSpec
  import Refresh = RefreshSpec

  datatype Entry = Entry(question: Question, sections: Sections)

  /** What a step hands to the cache, and for which question. */
  ghost function HandedOver(c: Config, s: System, step: Step): Option<Entry> {
    match step
    case Advance(id, w, _) =>
      if id in s.queries && s.queries[id].req.question != [] && s.queries[id].slot < |s.queries[id].order| then
        var q := s.queries[id];
        var brought := w.brings(q.order[q.slot], q.slot);
        if q.order[q.slot] in {"relay", "doh", "dot", "plain"} && brought.Some? && BanFree(c.ban, brought.value)
        then Some(Entry(q.req.question[0], brought.value))
        else None
      else None
    case StoreFetched(id, f, _) =>
      if id < |s.begun| && id !in s.stored then Fetched(c, s.begun[id].question, f) else None
    case Demand(q, f, _) => if c.demands then Fetched(c, q, f) else None
    case _ => None
  }

  ghost function Fetched(c: Config, q: Question, f: Fetch): Option<Entry> {
    match UpstreamOnly(c.order, 0, "relay" in c.equipped, f.brings)
    case None => None
    case Some(sections) => Some(Entry(q, sections))
  }

  /** Some step of the run handed these sections to the cache for this question. */
  ghost predicate HandedBefore(c: Config, start: State, steps: seq<Step>, e: Entry) {
    exists i :: 0 <= i < |steps| && HandedOver(c, After(c, start, steps[..i]), steps[i]) == Some(e)
  }

  /** The snapshot file held them under the question's name and type. */
  ghost predicate LoadedFor(start: State, e: Entry) {
    exists x :: x in start.lines && x.key == e.question.name + "|" + e.question.qtype
                && x.packed.decoded == Some(e.sections)
  }

  /** Every loaded key is a name and a type without a bar in it. */
  ghost predicate WellKeyed(start: State) {
    forall x :: x in start.lines ==> exists q: Question :: '|' !in q.qtype && x.key == q.name + "|" + q.qtype
  }

  /** No type in any question has a bar in its name. */
  predicate PlainType(step: Step) {
    match step
    case Arrive(req, _, _, _) => req.question != [] ==> '|' !in req.question[0].qtype
    case Demand(q, _, _) => '|' !in q.qtype
    case _ => true
  }

  // ---------- the invariant ----------

  /** The line was filled for a question whose key it has. */
  ghost predicate Sourced(x: Line, known: iset<Entry>) {
    x.packed.decoded.Some? ==>
      exists q: Question :: NoBar(q.qtype) && KeyOf(q) == x.key && Entry(q, x.packed.decoded.value) in known
  }

  ghost predicate AllSourced(s: State, known: iset<Entry>) {
    forall x :: x in s.lines ==> Sourced(x, known)
  }

  ghost predicate PlainQuestions(s: System) {
    && (forall id :: id in s.queries && s.queries[id].req.question != [] ==> NoBar(s.queries[id].req.question[0].qtype))
    && (forall i :: 0 <= i < |s.begun| ==> NoBar(s.begun[i].question.qtype))
  }

  lemma {:induction false} GetKeepsSources(s: State, k: string, now: int, known: iset<Entry>)
    requires AllSourced(s, known)
    ensures AllSourced(Spec.Get(s, k, now).after, known)
  {
    FindKey(s.lines, k);
    WithoutWithin(s.lines, k);
    if Find(s.lines, k).Some? {
      assert Sourced(Find(s.lines, k).value, known);
    }
  }

  lemma {:induction false} StoreKeepsSources(s: State, q: Question, sections: Sections, packed: Option<Packed>,
                                             fromPrefetch: bool, now: int, known: iset<Entry>)
    requires AllSourced(s, known) && NoBar(q.qtype) && Entry(q, sections) in known
    requires packed.Some? && packed.value.decoded.Some? ==> packed.value.decoded.value == sections
    ensures AllSourced(Spec.Store(s, KeyOf(q), sections.answer, packed, fromPrefetch, now), known)
  {
    WithoutWithin(s.lines, KeyOf(q));
    if Effective(s.opts, sections.answer, packed) {
      var x := Line(KeyOf(q), packed.value, now + ClampedTTL(s.opts, sections.answer), 0, fromPrefetch);
      forall n: nat
        ensures Sourced(x.(hits := n), known)
      {}
    }
  }

  /** What holds of the cache and of the questions under way. */
  ghost predicate Traced(s: System, known: iset<Entry>) {
    AllSourced(s.cache.state, known) && PlainQuestions(s)
  }

  lemma {:induction false} AdvanceKeeps(c: Config, s: System, step: Step, known: iset<Entry>)
    requires Traced(s, known) && step.Advance? && Legal(c, step)
    requires HandedOver(c, s, step).Some? ==> HandedOver(c, s, step).value in known
    ensures Traced(Apply(c, s, step), known)
  {
    if step.id in s.queries && s.queries[step.id].req.question != []
       && s.queries[step.id].slot < |s.queries[step.id].order|
    {
      var q, w := s.queries[step.id], WorldAt(c, step.w, step.now);
      var strategy, question := q.order[q.slot], q.req.question[0];
      GetKeepsSources(s.cache.state, KeyOf(question), step.now, known);
      var (t, c') := TurnOf(q.req, strategy, q.slot, Some(s.cache), w);
      if Usable(c.ban, t) && IsUpstream(strategy) {
        StoreKeepsSources(c'.value.state, question, t.msg.sections, w.pack(t.msg), false, step.now, known);
      }
    }
  }

  lemma {:induction false} RefetchKeeps(c: Config, s: State, q: Question, fromPrefetch: bool, f: Fetch, now: int,
                                        known: iset<Entry>)
    requires AllSourced(s, known) && LegalWorld(c, f.brings, f.pack) && NoBar(q.qtype)
    requires Fetched(c, q, f).Some? ==> Fetched(c, q, f).value in known
    ensures AllSourced(Refetched(c, s, q, fromPrefetch, f, now), known)
  {
    var reply := UpstreamOnly(c.order, 0, "relay" in c.equipped, f.brings);
    if reply.Some? {
      var msg := Restamp(reply.value, Query(f.id, [q]));
      StoreKeepsSources(s, q, reply.value, f.pack(msg), fromPrefetch, now, known);
    }
  }

  lemma {:induction false} StepTraced(c: Config, s: System, step: Step, known: iset<Entry>)
    requires Traced(s, known) && Legal(c, step) && PlainType(step)
    requires HandedOver(c, s, step).Some? ==> HandedOver(c, s, step).value in known
    ensures Traced(Apply(c, s, step), known)
  {
    match step
    case Arrive(_, _, _, _) =>
    case Advance(_, _, _) => AdvanceKeeps(c, s, step, known);
    case StoreFetched(id, f, now) =>
      if id < |s.begun| && id !in s.stored {
        RefetchKeeps(c, s.cache.state, s.begun[id].question, s.begun[id].reason.ForPrefetch?, f, now, known);
      }
    case ClearFlag(_, _) =>
    case Demand(q, f, now) =>
      if c.demands {
        RefetchKeeps(c, s.cache.state, q, false, f, now, known);
      }
    case Remove(k, _) => WithoutWithin(s.cache.state.lines, k);
    case RemoveName(name, _) => WithoutNameWithin(s.cache.state.lines, name);
    case RemoveAll(_) =>
  }

  /** Everything handed over so far, and everything loaded. */
  ghost function Known(c: Config, start: State, steps: seq<Step>): iset<Entry> {
    iset e | HandedBefore(c, start, steps, e) || LoadedFor(start, e)
  }

  lemma {:induction false} KnownGrows(c: Config, start: State, steps: seq<Step>)
    requires steps != []
    ensures Known(c, start, steps[..|steps| - 1]) <= Known(c, start, steps)
    ensures var step := HandedOver(c, After(c, start, steps[..|steps| - 1]), steps[|steps| - 1]);
            step.Some? ==> step.value in Known(c, start, steps)
  {
    var before := steps[..|steps| - 1];
    forall e | HandedBefore(c, start, before, e)
      ensures HandedBefore(c, start, steps, e)
    {
      var i :| 0 <= i < |before| && HandedOver(c, After(c, start, before[..i]), before[i]) == Some(e);
      assert before[..i] == steps[..i];
    }
  }

  lemma {:induction false} StartTraced(c: Config, start: State)
    requires WellKeyed(start)
    ensures Traced(Initial(start), Known(c, start, []))
  {
    forall x | x in start.lines
      ensures Sourced(x, Known(c, start, []))
    {
      var q: Question :| '|' !in q.qtype && x.key == q.name + "|" + q.qtype;
      assert KeyOf(q) == x.key;
    }
  }

  lemma {:induction false} RunTraced(c: Config, start: State, steps: seq<Step>)
    requires WellKeyed(start) && AllLegal(c, steps) && forall i :: 0 <= i < |steps| ==> PlainType(steps[i])
    ensures Traced(After(c, start, steps), Known(c, start, steps))
  {
    if steps == [] {
      StartTraced(c, start);
    } else {
      var before := steps[..|steps| - 1];
      RunTraced(c, start, before);
      KnownGrows(c, start, steps);
      TracedMore(After(c, start, before), Known(c, start, before), Known(c, start, steps));
      StepTraced(c, After(c, start, before), steps[|steps| - 1], Known(c, start, steps));
    }
  }

  lemma {:induction false} TracedMore(s: System, known: iset<Entry>, more: iset<Entry>)
    requires Traced(s, known) && known <= more
    ensures Traced(s, more)
  {
    forall x | x in s.cache.state.lines
      ensures Sourced(x, more)
    {
      assert Sourced(x, known);
    }
  }

  // ---------- what a cache slot answers ----------

  lemma {:induction false} HitIsSourced(s: State, q: Question, now: int, known: iset<Entry>)
    requires AllSourced(s, known) && NoBar(q.qtype) && !Spec.Get(s, KeyOf(q), now).outcome.Miss?
    ensures Entry(q, Spec.Get(s, KeyOf(q), now).outcome.sections) in known
  {
    FindKey(s.lines, KeyOf(q));
    var x := Find(s.lines, KeyOf(q)).value;
    assert Sourced(x, known);
    var q': Question :| NoBar(q'.qtype) && KeyOf(q') == x.key && Entry(q', x.packed.decoded.value) in known;
    JoinInjective(q.name, q.qtype, q'.name, q'.qtype);
  }

  /**
   Whatever a query's cache slot produces was handed to the cache before for exactly the query's question,
   or was loaded under its name and type, in every run that starts from a well-keyed snapshot file or none.
  */
  lemma {:induction false} ServedForItsQuestion(c: Config, start: State, steps: seq<Step>, id: nat, w: World, now: int)
    requires WellKeyed(start) && AllLegal(c, steps) && forall i :: 0 <= i < |steps| ==> PlainType(steps[i])
    requires var s := After(c, start, steps);
             && id in s.queries && s.queries[id].req.question != []
             && s.queries[id].slot < |s.queries[id].order| && s.queries[id].order[s.queries[id].slot] == "cache"
    ensures var s := After(c, start, steps);
            var q := s.queries[id];
            var turn := TurnOf(q.req, "cache", q.slot, Some(s.cache), WorldAt(c, w, now)).0;
            turn.Produced? ==>
              var e := Entry(q.req.question[0], turn.msg.sections);
              HandedBefore(c, start, steps, e) || LoadedFor(start, e)
  {
    RunTraced(c, start, steps);
    var s := After(c, start, steps);
    var question := s.queries[id].req.question[0];
    if !Spec.Get(s.cache.state, KeyOf(question), now).outcome.Miss? {
      HitIsSourced(s.cache.state, question, now, Known(c, start, steps));
    }
  }

  /** So where nothing was handed over for its question, the cache slot declines. */
  lemma {:induction false} OtherQuestionsDeclined(c: Config, o: Options, steps: seq<Step>, id: nat, w: World, now: int)
    requires AllLegal(c, steps) && forall i :: 0 <= i < |steps| ==> PlainType(steps[i])
    requires var s := After(c, Restarted(o, []), steps);
             && id in s.queries && s.queries[id].req.question != []
             && s.queries[id].slot < |s.queries[id].order| && s.queries[id].order[s.queries[id].slot] == "cache"
    requires var q := After(c, Restarted(o, []), steps).queries[id].req.question[0];
             forall sections :: !HandedBefore(c, Restarted(o, []), steps, Entry(q, sections))
    ensures var s := After(c, Restarted(o, []), steps);
            TurnOf(s.queries[id].req, "cache", s.queries[id].slot, Some(s.cache), WorldAt(c, w, now)).0 == Declined
  {
    ServedForItsQuestion(c, Restarted(o, []), steps, id, w, now);
  }
}
