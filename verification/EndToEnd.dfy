/**
 A query all the way through: the resolver's upstream calls are coalesced calls, and plain's are calls
 of the plain client. What the resolver takes on trust of its upstreams is proved of them here.
*/
module EndToEnd {
  import opened Wrappers
  import opened Messages
  import opened Keys
  import opened UpstreamSpec
  import Clients = Upstream
  import opened CacheSpec
  import opened ResolverSpec
  import opened ResolverLaws
  import opened CleanRuns
  import Flight = Coalescing

  /** The call that the query's attempt on a strategy in a slot led or joined, as its caller sees it. */
  type Calls = (string, nat) -> Flight.Upstream

  /** What the attempt hands to the resolver: the message re-stamped for its own request, or an error. */
  function Handed(calls: Calls, req: Query, strategy: string, i: nat): Flight.Result {
    Flight.Deliver(Flight.Resolver, calls(strategy, i), req)
  }

  /** The sections in what is handed over do not depend on who asked. */
  function Upstreamed(calls: Calls): Upstreams {
    (s: string, i: nat) => if calls(s, i).Replied? then Some(calls(s, i).sections) else None
  }

  /** A client call comes to an answer, or to an error. */
  ghost function OutcomeOf(leg: Leg, h: HealthView): Flight.Upstream {
    var reply := UpstreamSpec.Serve(leg, h).reply;
    if reply.Some? then Flight.Replied(reply.value.sections) else Flight.Failed("all servers failed")
  }

  /** The rules of the direct clients; the relay has its own. */
  function RulesOf(strategy: string, ban: Option<BanList>): Rules {
    if strategy == "plain" then Rules("plain", true, ban) else Rules(strategy, strategy == "dot", None)
  }

  /** These are the rules of the clients' own calls. */
  lemma ClientsFollowRules(doh: Clients.DoHClient, dot: Clients.DoTClient, plain: Clients.PlainClient,
                           ready: bool, net: Network, ended: nat -> bool, now: int)
    ensures doh.Run(ready, net, now).rules == RulesOf("doh", plain.ban)
    ensures dot.Run(net, now).rules == RulesOf("dot", plain.ban)
    ensures plain.Run(net, ended, now).rules == RulesOf("plain", plain.ban)
  {}

  /** The servers that the direct clients have, none where there is no client, and whether a relay is set up. */
  datatype Setup = Setup(servers: map<string, seq<string>>, relaySet: bool)

  predicate Direct(strategy: string) {
    strategy == "doh" || strategy == "dot" || strategy == "plain"
  }

  /** The upstreams that have a client with servers to ask. */
  function EquippedBy(setup: Setup): set<string> {
    (set s | s in setup.servers && Direct(s) && setup.servers[s] != []) + if setup.relaySet then {"relay"} else {}
  }

  /** Every answered call was made by the client of its strategy: a direct one with its servers, or the relay's. */
  ghost predicate MadeByClients(setup: Setup, ban: Option<BanList>, calls: Calls) {
    forall strategy: string, i: nat :: calls(strategy, i).Replied? ==>
      if Direct(strategy) then
        && strategy in setup.servers
        && exists leg: Leg, h: HealthView ::
             leg.rules == RulesOf(strategy, ban) && leg.servers == setup.servers[strategy]
             && OutcomeOf(leg, h) == calls(strategy, i)
      else strategy == "relay" && setup.relaySet
  }

  /** So plain filters by the ban list: the resolver's trust in it is justified. */
  lemma PlainIsFiltered(setup: Setup, ban: Option<BanList>, calls: Calls)
    requires MadeByClients(setup, ban, calls)
    ensures PlainFilters(ban, Upstreamed(calls))
  {
    forall i: nat | Upstreamed(calls)("plain", i).Some?
      ensures BanFree(ban, Upstreamed(calls)("plain", i).value)
    {
      assert calls("plain", i).Replied?;
      var leg: Leg, h: HealthView :| leg.rules == RulesOf("plain", ban) && leg.servers == setup.servers["plain"]
                                     && OutcomeOf(leg, h) == calls("plain", i);
      RepliesAreAcceptable(leg, h);
    }
  }

  /** And no upstream replies that has no client, or a client without servers. */
  lemma OnlyEquippedReply(setup: Setup, ban: Option<BanList>, calls: Calls)
    requires MadeByClients(setup, ban, calls)
    ensures OnlyEquipped(EquippedBy(setup), Upstreamed(calls))
  {
    forall strategy: string, i: nat | Upstreamed(calls)(strategy, i).Some?
      ensures strategy in EquippedBy(setup)
    {
      assert calls(strategy, i).Replied?;
      if Direct(strategy) {
        var leg: Leg, h: HealthView :| leg.rules == RulesOf(strategy, ban) && leg.servers == setup.servers[strategy]
                                       && OutcomeOf(leg, h) == calls(strategy, i);
        assert leg.servers != [];
      }
    }
  }

  /**
   What the querying client receives. If an upstream slot settles the query, the reply is what that
   slot's attempt handed over for this very request, it is ban-free, and each upstream slot in use
   before it was handed an error or a banned answer. Otherwise no upstream slot in use was handed
   anything ban-free at all.
  */
  lemma ClientReceives(req: Query, order: seq<string>, c: Option<Held>, ban: Option<BanList>, w: World, calls: Calls)
    requires req.question != [] && w.brings == Upstreamed(calls)
    ensures var r := Resolve(req, order, c, ban, w);
            var last := if r.slot.Some? then r.slot.value else |order|;
            && last <= |order| && (r.slot.Some? ==> last < |order|)
            && (r.slot.Some? && IsUpstream(order[last]) ==>
                  Handed(calls, req, order[last], last) == Flight.Answer(r.msg) && BanFree(ban, r.msg.sections))
            && (forall j :: 0 <= j < last && Attempted(order[j], w.relaySet) ==>
                  var got := Handed(calls, req, order[j], j);
                  got.Error? || (got.Answer? && !BanFree(ban, got.msg.sections)))
  {
    ResolveSound(req, order, c, ban, w);
    var r := Resolve(req, order, c, ban, w);
    var last := if r.slot.Some? then r.slot.value else |order|;
    forall j | 0 <= j < last && Attempted(order[j], w.relaySet)
      ensures var got := Handed(calls, req, order[j], j); got.Error? || (got.Answer? && !BanFree(ban, got.msg.sections))
    {
      assert !Usable(ban, TurnAt(req, order, c, w, j));
    }
  }

  /** The key under which attempts on a strategy for this question are coalesced. */
  function FlightKey(q: Question, strategy: string): string {
    JoinStrategy(q.name, q.qtype, strategy)
  }

  /**
   The same through a run of the coalescing protocol: where the query's attempt on the settling strategy
   was caller p, and calls tells what p's call came to, p returns exactly that reply, from a call that
   was made under the key of this question and this strategy.
  */
  lemma ThroughTheProtocol(cfg: Flight.Config, run: seq<Flight.State>, i: nat, p: Flight.Caller,
                           req: Query, order: seq<string>, c: Option<Held>, ban: Option<BanList>, w: World,
                           calls: Calls)
    requires req.question != [] && w.brings == Upstreamed(calls)
    requires cfg.site == Flight.Resolver && Flight.IsRun(cfg, run) && i < |run|
    requires p in cfg.asks && p in run[i].phase && run[i].phase[p].Returned? && run[i].phase[p].from in run[i].calls
    requires var r := Resolve(req, order, c, ban, w);
             && r.slot.Some? && r.slot.value < |order| && IsUpstream(order[r.slot.value])
             && cfg.asks[p] == Flight.Ask(FlightKey(req.question[0], order[r.slot.value]), req)
             && run[i].calls[run[i].phase[p].from].outcome == Some(calls(order[r.slot.value], r.slot.value))
    ensures run[i].phase[p].result == Flight.Answer(Resolve(req, order, c, ban, w).msg)
    ensures var strategy := order[Resolve(req, order, c, ban, w).slot.value];
            run[i].calls[run[i].phase[p].from].key == FlightKey(req.question[0], strategy)
  {
    ClientReceives(req, order, c, ban, w, calls);
    Flight.Reachable(cfg, run, i);
    assert Flight.LeaderOk(cfg, run[i], p);
  }

  /** Callers share a call only if they ask the same question of the same strategy. */
  lemma SharedCallSameQuestion(cfg: Flight.Config, run: seq<Flight.State>, i: nat, p: Flight.Caller, o: Flight.Caller,
                               q: Question, s: string, q': Question, s': string)
    requires Flight.IsRun(cfg, run) && i < |run| && p in cfg.asks && o in cfg.asks
    requires p in run[i].phase && o in run[i].phase
    requires run[i].phase[p].Returned? && run[i].phase[o].Returned? && run[i].phase[p].from == run[i].phase[o].from
    requires cfg.asks[p].key == FlightKey(q, s) && cfg.asks[o].key == FlightKey(q', s')
    requires NoBar(q.qtype) && NoBar(q'.qtype) && NoBar(s) && NoBar(s')
    ensures q == q' && s == s'
  {
    Flight.Delivered(cfg, run, i, p);
    Flight.Delivered(cfg, run, i, o);
    JoinStrategyInjective(q.name, q.qtype, s, q'.name, q'.qtype, s');
  }

  /** Queries' turns and refreshes whose upstream calls the clients made are steps of CleanRuns. */
  lemma ClientCallsAreLegal(setup: Setup, cfg: CleanRuns.Config, id: nat, w: World, f: Fetch, now: int,
                            calls: Calls, refreshCalls: Calls)
    requires cfg.equipped == EquippedBy(setup)
    requires MadeByClients(setup, cfg.ban, calls) && w.brings == Upstreamed(calls) && Faithful(w.pack)
    requires MadeByClients(setup, cfg.ban, refreshCalls) && f.brings == Upstreamed(refreshCalls) && Faithful(f.pack)
    ensures Legal(cfg, CleanRuns.Advance(id, w, now)) && Legal(cfg, CleanRuns.StoreFetched(id, f, now))
  {
    PlainIsFiltered(setup, cfg.ban, calls);
    OnlyEquippedReply(setup, cfg.ban, calls);
    PlainIsFiltered(setup, cfg.ban, refreshCalls);
    OnlyEquippedReply(setup, cfg.ban, refreshCalls);
  }
}
