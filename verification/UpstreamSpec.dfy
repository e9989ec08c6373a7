/**
 The fallback loops over the servers of one transport and over the transports, as functions of the
 tracked health and of what the network brings. Main results: a client answers from the first
 acceptable server in health order and leaves one record per attempt (OneRecordPerAttempt,
 ExhaustedTriesAll), and health decides who answers but never whether anybody does
 (AnswersIffSomeServerDoes, ChainAnswersIff).
*/
module UpstreamSpec {
  import opened Wrappers
  import opened Messages
  import opened HealthSpec
  import opened Ranking
  import opened TrackerSpec
  import Effect = TrackerSpec

  datatype Exchange = NoReply | Reply(truncated: bool, msg: Msg)

  /** One exchange with a server: what came back, how long it took, and when it was recorded. */
  datatype Attempt = Attempt(exchange: Exchange, took: int, at: int)

  /** What the i-th exchange brings when it is with this server. */
  type Network = (string, nat) -> Attempt

  /** The transport's path label and what it refuses besides failed exchanges. */
  datatype Rules = Rules(path: string, refusesTruncated: bool, ban: Option<BanList>)

  predicate Accepts(r: Rules, x: Exchange) {
    x.Reply? && !(r.refusesTruncated && x.truncated) && BanFree(r.ban, x.msg.sections)
  }

  /** The tracked health, or None where no tracker is attached. */
  type HealthView = Option<Book>

  function Preferred(h: HealthView, path: string, servers: seq<string>, now: int): seq<string> {
    if h.None? then servers else Effect.Order(h.value, path, servers, now)
  }

  function Touched(h: HealthView, path: string, servers: seq<string>, now: int): HealthView {
    if h.None? then None else Some(OrderTouches(h.value, path, servers, now))
  }

  function Note(r: Rules, h: HealthView, server: string, a: Attempt): HealthView {
    if h.None? then None
    else if Accepts(r, a.exchange) then Some(Effect.RecordSuccess(h.value, Place(r.path, server), a.took, a.at))
    else Some(Effect.RecordFailure(h.value, Place(r.path, server), a.at))
  }

  /** The health after the first n attempts in the given order. */
  ghost function After(r: Rules, h: HealthView, order: seq<string>, net: Network, n: nat): HealthView
    requires n <= |order|
  {
    if n == 0 then h else Note(r, After(r, h, order, net, n - 1), order[n - 1], net(order[n - 1], n - 1))
  }

  /** How many attempts are made, when i have been made without an acceptable reply. */
  ghost function Attempts(r: Rules, order: seq<string>, net: Network, ended: nat -> bool, i: nat): nat
    requires i <= |order|
    decreases |order| - i
  {
    if i == |order| || ended(i) then i
    else if Accepts(r, net(order[i], i).exchange) then i + 1
    else Attempts(r, order, net, ended, i + 1)
  }

  /**
   One use of one client. ready is false when the request does not pack; ended(i), when the caller gave up
   before attempt i.
  */
  datatype Leg = Leg(
    rules: Rules, servers: seq<string>, tracked: bool,
    ready: bool, net: Network, ended: nat -> bool, now: int)

  datatype Served = Served(reply: Option<Msg>, health: HealthView)

  ghost function OrderOf(leg: Leg, h: HealthView): seq<string> {
    Preferred(if leg.tracked then h else None, leg.rules.path, leg.servers, leg.now)
  }

  ghost function AttemptsOf(leg: Leg, h: HealthView): nat {
    if leg.servers == [] || !leg.ready then 0 else Attempts(leg.rules, OrderOf(leg, h), leg.net, leg.ended, 0)
  }

  ghost function ReplyAfter(r: Rules, order: seq<string>, net: Network, n: nat): Option<Msg> {
    if 0 < n <= |order| && Accepts(r, net(order[n - 1], n - 1).exchange)
    then Some(net(order[n - 1], n - 1).exchange.msg)
    else None
  }

  ghost function Serve(leg: Leg, h: HealthView): Served {
    if leg.servers == [] || !leg.ready then Served(None, h)
    else
      var order, n := OrderOf(leg, h), AttemptsOf(leg, h);
      AttemptsBound(leg.rules, order, leg.net, leg.ended, 0);
      Served(ReplyAfter(leg.rules, order, leg.net, n),
             if leg.tracked
             then After(leg.rules, Touched(h, leg.rules.path, leg.servers, leg.now), order, leg.net, n)
             else h)
  }

  lemma {:induction false} AttemptsBound(r: Rules, order: seq<string>, net: Network, ended: nat -> bool, i: nat)
    requires i <= |order|
    ensures i <= Attempts(r, order, net, ended, i) <= |order|
    decreases |order| - i
  {
    if i < |order| && !ended(i) && !Accepts(r, net(order[i], i).exchange) {
      AttemptsBound(r, order, net, ended, i + 1);
    }
  }

  /** Every attempt but the last was unacceptable, and attempts stop only for a reason. */
  lemma {:induction false} AttemptsMeans(r: Rules, order: seq<string>, net: Network, ended: nat -> bool, i: nat)
    requires i <= |order|
    ensures var n := Attempts(r, order, net, ended, i);
            && i <= n <= |order|
            && (forall j :: i <= j < n ==> !ended(j))
            && (forall j :: i <= j < n - 1 ==> !Accepts(r, net(order[j], j).exchange))
            && (n == |order| || ended(n) || (n > i && Accepts(r, net(order[n - 1], n - 1).exchange)))
    decreases |order| - i
  {
    if i < |order| && !ended(i) && !Accepts(r, net(order[i], i).exchange) {
      AttemptsMeans(r, order, net, ended, i + 1);
    }
  }

  /**
   A client returns only what one of its attempts brought and its rules allow; plain never returns a banned
   answer.
  */
  lemma RepliesAreAcceptable(leg: Leg, h: HealthView)
    requires Serve(leg, h).reply.Some?
    ensures var order, n, msg := OrderOf(leg, h), AttemptsOf(leg, h), Serve(leg, h).reply.value;
            && 0 < n <= |order|
            && leg.net(order[n - 1], n - 1).exchange.Reply? && leg.net(order[n - 1], n - 1).exchange.msg == msg
            && !(leg.rules.refusesTruncated && leg.net(order[n - 1], n - 1).exchange.truncated)
    ensures BanFree(leg.rules.ban, Serve(leg, h).reply.value.sections)
    ensures forall j :: 0 <= j < AttemptsOf(leg, h) - 1 && j < |OrderOf(leg, h)|
                        ==> !Accepts(leg.rules, leg.net(OrderOf(leg, h)[j], j).exchange)
  {
    AttemptsMeans(leg.rules, OrderOf(leg, h), leg.net, leg.ended, 0);
  }

  lemma OrderPermutes(h: HealthView, path: string, servers: seq<string>, now: int)
    ensures multiset(Preferred(h, path, servers, now)) == multiset(servers)
    ensures |Preferred(h, path, servers, now)| == |servers|
  {
    if h.Some? && |servers| > 1 {
      var from := RankedIsStable(servers, Scores(h.value, path, servers, now));
    }
  }

  // ---------- one record per attempt ----------

  function Count(order: seq<string>, server: string): nat {
    multiset(order)[server]
  }

  /** The counters of p grow by these numbers of requests and successes. */
  ghost predicate Grows(before: Stats, after: Stats, requests: nat, successes: nat) {
    && after.requests == before.requests + requests
    && after.successes == before.successes + successes
    && after.failures == before.failures + requests - successes
  }

  lemma NoteGrows(r: Rules, m: Book, server: string, a: Attempt, p: Place)
    ensures Note(r, Some(m), server, a).Some?
    ensures var after := Lookup(Note(r, Some(m), server, a).value, p);
            if p != Place(r.path, server) then after == Lookup(m, p)
            else Grows(Lookup(m, p), after, 1, if Accepts(r, a.exchange) then 1 else 0)
  {}

  ghost function Won(r: Rules, order: seq<string>, net: Network, n: nat, server: string): nat
    requires n <= |order|
  {
    if ReplyAfter(r, order, net, n).Some? && order[n - 1] == server then 1 else 0
  }

  /** n attempts leave one record each: one failure per refused attempt, one success for the accepted one. */
  lemma {:induction false} RecordsCount(r: Rules, m: Book, order: seq<string>, net: Network, n: nat, p: Place)
    requires n <= |order|
    requires forall j :: 0 <= j < n - 1 ==> !Accepts(r, net(order[j], j).exchange)
    ensures After(r, Some(m), order, net, n).Some?
    ensures var after := Lookup(After(r, Some(m), order, net, n).value, p);
            if p.path != r.path then after == Lookup(m, p)
            else Grows(Lookup(m, p), after, Count(order[..n], p.endpoint), Won(r, order, net, n, p.endpoint))
  {
    if n > 0 {
      RecordsCount(r, m, order, net, n - 1, p);
      assert order[..n] == order[..n - 1] + [order[n - 1]];
      NoteGrows(r, After(r, Some(m), order, net, n - 1).value, order[n - 1], net(order[n - 1], n - 1), p);
      assert n > 1 ==> !Accepts(r, net(order[n - 2], n - 2).exchange);
      assert Won(r, order, net, n - 1, p.endpoint) == 0;
    } else {
      assert order[..0] == [];
    }
  }

  /**
   A client call changes the counters of its own transport only, by one request for each attempt made:
   a success for the server that answered, a failure for each other attempt.
  */
  lemma OneRecordPerAttempt(leg: Leg, m: Book, p: Place)
    requires leg.tracked
    ensures Serve(leg, Some(m)).health.Some?
    ensures var after := Lookup(Serve(leg, Some(m)).health.value, p);
            var n, order := AttemptsOf(leg, Some(m)), OrderOf(leg, Some(m));
            && n <= |order|
            && if p.path != leg.rules.path then after == Lookup(m, p)
               else
                 Grows(Lookup(m, p), after, Count(order[..n], p.endpoint),
                       if Serve(leg, Some(m)).reply.Some? && order[n - 1] == p.endpoint then 1 else 0)
  {
    var r, order, n := leg.rules, OrderOf(leg, Some(m)), AttemptsOf(leg, Some(m));
    if leg.servers == [] || !leg.ready {
      assert order[..0] == [];
    } else {
      AttemptsMeans(r, order, leg.net, leg.ended, 0);
      var t := OrderTouches(m, r.path, leg.servers, leg.now);
      RecordsCount(r, t, order, leg.net, n, p);
      OrderKeepsCounters(m, r.path, leg.servers, leg.now, p);
    }
  }

  /** n attempts change no latency average except that of the server that answered, by its own measurement. */
  lemma {:induction false} AveragesAfter(r: Rules, m: Book, order: seq<string>, net: Network, n: nat, p: Place)
    requires n <= |order|
    requires forall j :: 0 <= j < n - 1 ==> !Accepts(r, net(order[j], j).exchange)
    ensures After(r, Some(m), order, net, n).Some?
    ensures var after := Lookup(After(r, Some(m), order, net, n).value, p);
            if ReplyAfter(r, order, net, n).Some? && p == Place(r.path, order[n - 1]) then
              var a := net(order[n - 1], n - 1);
              && after.lastSuccess == Some(a.at)
              && after.ewma == Some(Average(Lookup(m, p).ewma, Milliseconds(a.took) as real))
            else after.lastSuccess == Lookup(m, p).lastSuccess && after.ewma == Lookup(m, p).ewma
  {
    if n > 0 {
      AveragesAfter(r, m, order, net, n - 1, p);
      assert n > 1 ==> !Accepts(r, net(order[n - 2], n - 2).exchange);
      assert ReplyAfter(r, order, net, n - 1).None?;
    }
  }

  /** A client call measures exactly the server that answered: its average takes in how long that attempt took. */
  lemma WinnerIsMeasured(leg: Leg, m: Book, p: Place)
    requires leg.tracked
    ensures Serve(leg, Some(m)).health.Some?
    ensures var after, n, order := Lookup(Serve(leg, Some(m)).health.value, p), AttemptsOf(leg, Some(m)),
                                    OrderOf(leg, Some(m));
            && n <= |order|
            && if Serve(leg, Some(m)).reply.Some? && p == Place(leg.rules.path, order[n - 1]) then
                 var a := leg.net(order[n - 1], n - 1);
                 && after.lastSuccess == Some(a.at)
                 && after.ewma == Some(Average(Lookup(m, p).ewma, Milliseconds(a.took) as real))
               else after.lastSuccess == Lookup(m, p).lastSuccess && after.ewma == Lookup(m, p).ewma
  {
    var r, order, n := leg.rules, OrderOf(leg, Some(m)), AttemptsOf(leg, Some(m));
    if leg.servers != [] && leg.ready {
      AttemptsMeans(r, order, leg.net, leg.ended, 0);
      var t := OrderTouches(m, r.path, leg.servers, leg.now);
      AveragesAfter(r, t, order, leg.net, n, p);
      if |leg.servers| > 1 {
        TouchAllIs(m, r.path, leg.servers, leg.now, p);
      }
    }
  }

  lemma OrderKeepsCounters(m: Book, path: string, servers: seq<string>, now: int, p: Place)
    ensures var before, after := Lookup(m, p), Lookup(OrderTouches(m, path, servers, now), p);
            && after.requests == before.requests && after.successes == before.successes
            && after.failures == before.failures && (p.path != path ==> after == before)
  {
    if |servers| > 1 {
      TouchAllIs(m, path, servers, now, p);
    }
  }

  /** A client that is not cut short fails only after trying every configured occurrence of every server once. */
  lemma ExhaustedTriesAll(leg: Leg, h: HealthView, server: string)
    requires leg.ready && leg.servers != [] && forall i :: !leg.ended(i)
    requires Serve(leg, h).reply.None?
    ensures AttemptsOf(leg, h) == |leg.servers| == |OrderOf(leg, h)|
    ensures Count(OrderOf(leg, h)[..AttemptsOf(leg, h)], server) == Count(leg.servers, server)
    ensures forall i :: 0 <= i < |leg.servers| ==> !Accepts(leg.rules, leg.net(OrderOf(leg, h)[i], i).exchange)
  {
    var order, n := OrderOf(leg, h), AttemptsOf(leg, h);
    AttemptsMeans(leg.rules, order, leg.net, leg.ended, 0);
    OrderPermutes(if leg.tracked then h else None, leg.rules.path, leg.servers, leg.now);
    assert order[..|order|] == order;
  }

  /**
   The servers that a successful call left unasked were, at the time of the call, in no better class
   than the one that answered, provided every recorded average is below a second.
  */
  lemma NoHealthierServerSkipped(leg: Leg, m: Book, l: nat)
    requires leg.tracked && Serve(leg, Some(m)).reply.Some?
    requires forall i :: 0 <= i < |leg.servers| ==> Below(Lookup(m, Place(leg.rules.path, leg.servers[i])), 1000.0)
    requires AttemptsOf(leg, Some(m)) <= l < |leg.servers| == |OrderOf(leg, Some(m))|
    ensures var order, n := OrderOf(leg, Some(m)), AttemptsOf(leg, Some(m));
            && 0 < n <= |order| && Accepts(leg.rules, leg.net(order[n - 1], n - 1).exchange)
            && Class(Seen(m, leg.rules.path, order[l], leg.now).state)
               <= Class(Seen(m, leg.rules.path, order[n - 1], leg.now).state)
  {
    var n := AttemptsOf(leg, Some(m));
    AttemptsMeans(leg.rules, OrderOf(leg, Some(m)), leg.net, leg.ended, 0);
    var from := OrderIsByClass(m, leg.rules.path, leg.servers, leg.now);
    assert OrderOf(leg, Some(m))[l] == leg.servers[from[l]];
  }

  // ---------- health decides who answers, not whether ----------

  /** What a server brings does not depend on when it is asked, and nobody gives up. */
  ghost predicate Steady(leg: Leg, brings: string -> Exchange) {
    && leg.ready && (forall i :: !leg.ended(i))
    && (forall server, i :: leg.net(server, i).exchange == brings(server))
  }

  ghost predicate CanAnswer(leg: Leg, brings: string -> Exchange) {
    exists server :: server in leg.servers && Accepts(leg.rules, brings(server))
  }

  /** With steady servers a client answers exactly when some server is acceptable, whatever the health. */
  lemma AnswersIffSomeServerDoes(leg: Leg, h: HealthView, brings: string -> Exchange)
    requires Steady(leg, brings)
    ensures Serve(leg, h).reply.Some? <==> CanAnswer(leg, brings)
    ensures Serve(leg, h).reply.Some? ==>
              exists server :: server in leg.servers && Accepts(leg.rules, brings(server))
                               && brings(server).msg == Serve(leg, h).reply.value
  {
    if leg.servers != [] {
      var order, n := OrderOf(leg, h), AttemptsOf(leg, h);
      AttemptsMeans(leg.rules, order, leg.net, leg.ended, 0);
      OrderPermutes(if leg.tracked then h else None, leg.rules.path, leg.servers, leg.now);
      if Serve(leg, h).reply.Some? {
        var server := order[n - 1];
        assert server in multiset(order);
        assert server in leg.servers && Accepts(leg.rules, brings(server));
      } else {
        ExhaustedTriesAll(leg, h, "");
        forall server | server in leg.servers
          ensures !Accepts(leg.rules, brings(server))
        {
          assert server in multiset(leg.servers);
          assert server in order;
          var i :| 0 <= i < |order| && order[i] == server;
          assert leg.net(order[i], i).exchange == brings(server);
        }
      }
    }
  }

  // ---------- the chain of transports ----------

  /** The first transport in the list that answers; transports that are not set up are skipped. */
  ghost function FirstAnswer(h: HealthView, legs: map<string, Leg>, paths: seq<string>): Served
    decreases |paths|
  {
    if paths == [] then Served(None, h)
    else if paths[0] !in legs then FirstAnswer(h, legs, paths[1..])
    else
      var s := Serve(legs[paths[0]], h);
      if s.reply.Some? then s else FirstAnswer(s.health, legs, paths[1..])
  }

  lemma NextPath(h: HealthView, legs: map<string, Leg>, paths: seq<string>, i: nat)
    requires i < |paths|
    ensures FirstAnswer(h, legs, paths[i..]) ==
            if paths[i] !in legs then FirstAnswer(h, legs, paths[i + 1..])
            else
              var s := Serve(legs[paths[i]], h);
              if s.reply.Some? then s else FirstAnswer(s.health, legs, paths[i + 1..])
  {
    assert paths[i..][1..] == paths[i + 1..];
  }

  const CHAIN := ["doh", "dot", "plain"]

  ghost function ChainPaths(h: HealthView, adaptive: bool, now: int): seq<string> {
    if adaptive && h.Some? then Effect.OrderTransports(h.value, CHAIN, now) else CHAIN
  }

  ghost function ChainTouched(h: HealthView, adaptive: bool, now: int): HealthView {
    if adaptive && h.Some? then Some(RefreshPaths(h.value, PathSet(CHAIN), now)) else h
  }

  lemma {:induction false} FirstAnswerIff(h: HealthView, legs: map<string, Leg>, brings: string -> string -> Exchange,
                                          paths: seq<string>)
    requires forall p :: p in legs ==> Steady(legs[p], brings(p))
    ensures FirstAnswer(h, legs, paths).reply.Some? <==>
            exists p :: p in paths && p in legs && CanAnswer(legs[p], brings(p))
    decreases |paths|
  {
    if paths != [] {
      var p := paths[0];
      if p !in legs {
        FirstAnswerIff(h, legs, brings, paths[1..]);
      } else {
        AnswersIffSomeServerDoes(legs[p], h, brings(p));
        FirstAnswerIff(Serve(legs[p], h).health, legs, brings, paths[1..]);
      }
    }
  }

  /** The chain answers exactly when some configured server of some transport is acceptable, adaptive or not. */
  lemma ChainAnswersIff(h: HealthView, adaptive: bool, now: int, legs: map<string, Leg>,
                        brings: string -> string -> Exchange)
    requires forall p :: p in legs ==> p in CHAIN && Steady(legs[p], brings(p))
    ensures FirstAnswer(ChainTouched(h, adaptive, now), legs, ChainPaths(h, adaptive, now)).reply.Some? <==>
            exists p :: p in legs && CanAnswer(legs[p], brings(p))
  {
    var paths := ChainPaths(h, adaptive, now);
    FirstAnswerIff(ChainTouched(h, adaptive, now), legs, brings, paths);
    if adaptive && h.Some? {
      OrderTransportsPermutes(h.value, CHAIN, now);
    }
    forall p | p in legs
      ensures p in paths
    {
      assert p in multiset(CHAIN);
      assert p in multiset(paths);
    }
  }
}
