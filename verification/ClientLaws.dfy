/**
 What the three upstream clients and the chain over them do, in terms of the replies their servers bring:
 which replies each client takes (DoHAnswersIff, DoTAnswersIff, PlainAnswersIff), what it records of each
 server (DoHRecords, DoTRecords, PlainRecords), and which transport's reply the chain hands on
 (ChainInOrder, PlainComesLast).
*/
module ClientLaws {
  import opened Wrappers
  import opened Messages
  import opened HealthSpec
  import opened Ranking
  import opened TrackerSpec
  import opened UpstreamSpec
  import opened Upstream
  import Effect = TrackerSpec

  // ---------- which replies a client takes ----------

  /** DoH takes any reply. */
  predicate GoodForDoH(x: Exchange) {
    x.Reply?
  }

  /** DoT takes a reply that is not truncated. */
  predicate GoodForDoT(x: Exchange) {
    x.Reply? && !x.truncated
  }

  /** Plain takes a reply that is neither truncated nor holds a banned address. */
  ghost predicate GoodForPlain(ban: Option<BanList>, x: Exchange) {
    x.Reply? && !x.truncated && !HoldsBanned(ban, x.msg.sections)
  }

  /** What a server brings does not depend on when it is asked. */
  ghost predicate SteadyNet(net: Network, brings: string -> Exchange) {
    forall server, i :: net(server, i).exchange == brings(server)
  }

  /** DoH answers exactly if some configured server replies at all, and with that reply. */
  lemma DoHAnswersIff(c: DoHClient, net: Network, now: int, h: HealthView, brings: string -> Exchange)
    requires SteadyNet(net, brings)
    ensures var reply := Serve(c.Run(true, net, now), h).reply;
            && (reply.Some? <==> exists s :: s in c.servers && GoodForDoH(brings(s)))
            && (reply.Some? ==>
                  exists s :: s in c.servers && GoodForDoH(brings(s)) && brings(s).msg == reply.value)
    ensures Serve(c.Run(false, net, now), h) == Served(None, h)
  {
    AnswersIffSomeServerDoes(c.Run(true, net, now), h, brings);
    assert forall s :: Accepts(c.Run(true, net, now).rules, brings(s)) <==> GoodForDoH(brings(s));
  }

  /** DoT answers exactly if some configured server brings a whole reply. */
  lemma DoTAnswersIff(c: DoTClient, net: Network, now: int, h: HealthView, brings: string -> Exchange)
    requires SteadyNet(net, brings)
    ensures var reply := Serve(c.Run(net, now), h).reply;
            && (reply.Some? <==> exists s :: s in c.servers && GoodForDoT(brings(s)))
            && (reply.Some? ==>
                  exists s :: s in c.servers && GoodForDoT(brings(s)) && brings(s).msg == reply.value)
  {
    AnswersIffSomeServerDoes(c.Run(net, now), h, brings);
    assert forall s :: Accepts(c.Run(net, now).rules, brings(s)) <==> GoodForDoT(brings(s));
  }

  lemma PlainAccepts(c: PlainClient, net: Network, now: int, x: Exchange)
    ensures Accepts(c.Run(net, _ => false, now).rules, x) <==> GoodForPlain(c.ban, x)
  {
    if x.Reply? {
      HoldsBannedIff(c.ban, x.msg.sections);
    }
  }

  /** Plain, if not cut short, answers exactly if some server brings a whole reply without a banned address. */
  lemma PlainAnswersIff(c: PlainClient, net: Network, now: int, h: HealthView, brings: string -> Exchange)
    requires SteadyNet(net, brings)
    ensures var reply := Serve(c.Run(net, _ => false, now), h).reply;
            && (reply.Some? <==> exists s :: s in c.servers && GoodForPlain(c.ban, brings(s)))
            && (reply.Some? ==>
                  exists s :: s in c.servers && GoodForPlain(c.ban, brings(s)) && brings(s).msg == reply.value)
  {
    AnswersIffSomeServerDoes(c.Run(net, _ => false, now), h, brings);
    forall s
      ensures Accepts(c.Run(net, _ => false, now).rules, brings(s)) <==> GoodForPlain(c.ban, brings(s))
    {
      PlainAccepts(c, net, now, brings(s));
    }
  }

  // ---------- what a client records ----------

  /** The counters of a server before and after a call. */
  datatype Change = Change(before: Stats, after: Stats)

  ghost function ChangeOf(leg: Leg, m: Book, path: string, server: string): Change
    requires leg.tracked
  {
    OneRecordPerAttempt(leg, m, Place(path, server));
    Change(Lookup(m, Place(path, server)), Lookup(Serve(leg, Some(m)).health.value, Place(path, server)))
  }

  /** A good server is never recorded as failed, nor any other as successful. */
  predicate RecordedAs(good: bool, c: Change) {
    if good then c.after.failures == c.before.failures && c.after.successes <= c.before.successes + 1
    else c.after.successes == c.before.successes && c.after.failures >= c.before.failures
  }

  lemma NotBeforeLast(order: seq<string>, n: nat, s: string)
    requires 0 < n <= |order| && forall j :: 0 <= j < n - 1 ==> order[j] != s
    ensures Count(order[..n], s) == if order[n - 1] == s then 1 else 0
  {
    assert order[..n] == order[..n - 1] + [order[n - 1]];
    assert s !in order[..n - 1];
    assert s !in multiset(order[..n - 1]);
  }

  lemma RecordsByRules(leg: Leg, m: Book, brings: string -> Exchange, s: string)
    requires Steady(leg, brings) && leg.tracked
    ensures RecordedAs(Accepts(leg.rules, brings(s)), ChangeOf(leg, m, leg.rules.path, s))
    ensures Serve(leg, Some(m)).reply.None? ==>
              var c := ChangeOf(leg, m, leg.rules.path, s);
              c.after.failures == c.before.failures + Count(leg.servers, s)
  {
    var order, n := OrderOf(leg, Some(m)), AttemptsOf(leg, Some(m));
    OneRecordPerAttempt(leg, m, Place(leg.rules.path, s));
    if leg.servers == [] {
      assert order[..0] == [];
    } else {
      AttemptsMeans(leg.rules, order, leg.net, leg.ended, 0);
      if Serve(leg, Some(m)).reply.None? {
        ExhaustedTriesAll(leg, Some(m), s);
        AnswersIffSomeServerDoes(leg, Some(m), brings);
      }
      if Accepts(leg.rules, brings(s)) && n > 0 {
        NotBeforeLast(order, n, s);
      }
    }
  }

  /** Every server was asked as often as it is configured, and each time recorded as failed. */
  ghost predicate AllFailed(leg: Leg, m: Book, path: string)
    requires leg.tracked
  {
    forall s :: ChangeOf(leg, m, path, s).after.failures
                == ChangeOf(leg, m, path, s).before.failures + Count(leg.servers, s)
  }

  /** The one success is that of w. */
  ghost predicate OnlyWon(leg: Leg, m: Book, path: string, w: string)
    requires leg.tracked
  {
    forall s :: ChangeOf(leg, m, path, s).after.successes
                == ChangeOf(leg, m, path, s).before.successes + if s == w then 1 else 0
  }

  lemma WinnerByRules(leg: Leg, m: Book, brings: string -> Exchange)
    requires Steady(leg, brings) && leg.tracked && Serve(leg, Some(m)).reply.Some?
    ensures exists w :: w in leg.servers && Accepts(leg.rules, brings(w))
                        && brings(w).msg == Serve(leg, Some(m)).reply.value && OnlyWon(leg, m, leg.rules.path, w)
  {
    var order, n := OrderOf(leg, Some(m)), AttemptsOf(leg, Some(m));
    AttemptsMeans(leg.rules, order, leg.net, leg.ended, 0);
    OrderPermutes(Some(m), leg.rules.path, leg.servers, leg.now);
    var w := order[n - 1];
    assert w in multiset(order);
    forall s
      ensures ChangeOf(leg, m, leg.rules.path, s).after.successes
              == ChangeOf(leg, m, leg.rules.path, s).before.successes + if s == w then 1 else 0
    {
      OneRecordPerAttempt(leg, m, Place(leg.rules.path, s));
    }
    assert OnlyWon(leg, m, leg.rules.path, w);
  }

  /** What DoH records: a success of the server that answered, failures of servers without a reply. */
  lemma DoHRecords(c: DoHClient, net: Network, now: int, m: Book, brings: string -> Exchange)
    requires SteadyNet(net, brings) && c.tracker != null
    ensures var leg := c.Run(true, net, now);
            var reply := Serve(leg, Some(m)).reply;
            && (forall s :: RecordedAs(GoodForDoH(brings(s)), ChangeOf(leg, m, "doh", s)))
            && (reply.None? ==> AllFailed(leg, m, "doh"))
            && (reply.Some? ==> exists w :: w in c.servers && GoodForDoH(brings(w))
                                            && brings(w).msg == reply.value && OnlyWon(leg, m, "doh", w))
  {
    var leg := c.Run(true, net, now);
    forall s
      ensures RecordedAs(GoodForDoH(brings(s)), ChangeOf(leg, m, "doh", s))
      ensures Serve(leg, Some(m)).reply.None? ==>
                ChangeOf(leg, m, "doh", s).after.failures
                == ChangeOf(leg, m, "doh", s).before.failures + Count(leg.servers, s)
    {
      RecordsByRules(leg, m, brings, s);
    }
    if Serve(leg, Some(m)).reply.Some? {
      WinnerByRules(leg, m, brings);
    }
  }

  /** What DoT records: a truncated reply counts as a failure. */
  lemma DoTRecords(c: DoTClient, net: Network, now: int, m: Book, brings: string -> Exchange)
    requires SteadyNet(net, brings) && c.tracker != null
    ensures var leg := c.Run(net, now);
            var reply := Serve(leg, Some(m)).reply;
            && (forall s :: RecordedAs(GoodForDoT(brings(s)), ChangeOf(leg, m, "dot", s)))
            && (reply.None? ==> AllFailed(leg, m, "dot"))
            && (reply.Some? ==> exists w :: w in c.servers && GoodForDoT(brings(w))
                                            && brings(w).msg == reply.value && OnlyWon(leg, m, "dot", w))
  {
    var leg := c.Run(net, now);
    forall s
      ensures RecordedAs(GoodForDoT(brings(s)), ChangeOf(leg, m, "dot", s))
      ensures Serve(leg, Some(m)).reply.None? ==>
                ChangeOf(leg, m, "dot", s).after.failures
                == ChangeOf(leg, m, "dot", s).before.failures + Count(leg.servers, s)
    {
      RecordsByRules(leg, m, brings, s);
    }
    if Serve(leg, Some(m)).reply.Some? {
      WinnerByRules(leg, m, brings);
    }
  }

  /** What plain records: a truncated reply and one with a banned address count as failures. */
  lemma PlainRecords(c: PlainClient, net: Network, now: int, m: Book, brings: string -> Exchange)
    requires SteadyNet(net, brings) && c.tracker != null
    ensures var leg := c.Run(net, _ => false, now);
            var reply := Serve(leg, Some(m)).reply;
            && (forall s :: RecordedAs(GoodForPlain(c.ban, brings(s)), ChangeOf(leg, m, "plain", s)))
            && (reply.None? ==> AllFailed(leg, m, "plain"))
            && (reply.Some? ==> exists w :: w in c.servers && GoodForPlain(c.ban, brings(w))
                                            && brings(w).msg == reply.value && OnlyWon(leg, m, "plain", w))
  {
    var leg := c.Run(net, _ => false, now);
    forall s
      ensures RecordedAs(GoodForPlain(c.ban, brings(s)), ChangeOf(leg, m, "plain", s))
      ensures Serve(leg, Some(m)).reply.None? ==>
                ChangeOf(leg, m, "plain", s).after.failures
                == ChangeOf(leg, m, "plain", s).before.failures + Count(leg.servers, s)
    {
      PlainAccepts(c, net, now, brings(s));
      RecordsByRules(leg, m, brings, s);
    }
    if Serve(leg, Some(m)).reply.Some? {
      WinnerByRules(leg, m, brings);
      var w :| w in leg.servers && Accepts(leg.rules, brings(w))
               && brings(w).msg == Serve(leg, Some(m)).reply.value && OnlyWon(leg, m, "plain", w);
      PlainAccepts(c, net, now, brings(w));
    }
  }

  // ---------- which transport the chain hands on ----------

  /** A transport's turn, which is skipped where it is not set up. */
  ghost function TurnOf(h: HealthView, legs: map<string, Leg>, path: string): Served {
    if path in legs then Serve(legs[path], h) else Served(None, h)
  }

  /** Without adapting the chain asks DoH first, then DoT, then plain, and hands on the first reply there is. */
  lemma ChainInOrder(h: HealthView, adaptive: bool, now: int, legs: map<string, Leg>)
    requires !adaptive || h.None?
    ensures var doh := TurnOf(h, legs, "doh");
            var dot := TurnOf(doh.health, legs, "dot");
            var plain := TurnOf(dot.health, legs, "plain");
            FirstAnswer(ChainTouched(h, adaptive, now), legs, ChainPaths(h, adaptive, now)) ==
            if doh.reply.Some? then doh else if dot.reply.Some? then dot else plain
  {
    var paths := ["doh", "dot", "plain"];
    assert ChainPaths(h, adaptive, now) == paths;
    var h1 := TurnOf(h, legs, "doh").health;
    NextPath(h, legs, paths, 0);
    NextPath(h1, legs, paths, 1);
    NextPath(TurnOf(h1, legs, "dot").health, legs, paths, 2);
    assert paths[0..] == paths && paths[3..] == [];
  }

  /** The health that the i-th of the paths meets if none before it answers. */
  ghost function HealthBefore(h: HealthView, legs: map<string, Leg>, paths: seq<string>, i: nat): HealthView
    requires i <= |paths|
  {
    if i == 0 then h else TurnOf(HealthBefore(h, legs, paths, i - 1), legs, paths[i - 1]).health
  }

  /** The i-th of the paths answers, and none before it does. */
  ghost predicate AnswersAt(h: HealthView, legs: map<string, Leg>, paths: seq<string>, i: nat, reply: Option<Msg>) {
    && i < |paths| && reply.Some? && TurnOf(HealthBefore(h, legs, paths, i), legs, paths[i]).reply == reply
    && forall j :: 0 <= j < i ==> TurnOf(HealthBefore(h, legs, paths, j), legs, paths[j]).reply.None?
  }

  lemma {:induction false} FirstAnswerFrom(h: HealthView, legs: map<string, Leg>, paths: seq<string>, i: nat)
    requires i <= |paths|
    requires forall j :: 0 <= j < i ==> TurnOf(HealthBefore(h, legs, paths, j), legs, paths[j]).reply.None?
    ensures var s := FirstAnswer(HealthBefore(h, legs, paths, i), legs, paths[i..]);
            s.reply.Some? ==> exists k :: AnswersAt(h, legs, paths, k, s.reply)
    decreases |paths| - i
  {
    if i < |paths| {
      var before := HealthBefore(h, legs, paths, i);
      NextPath(before, legs, paths, i);
      if TurnOf(before, legs, paths[i]).reply.Some? {
        assert AnswersAt(h, legs, paths, i, TurnOf(before, legs, paths[i]).reply);
      } else {
        FirstAnswerFrom(h, legs, paths, i + 1);
      }
    }
  }

  /** With averages below three seconds, plain and what is down come behind an encrypted transport that is not. */
  lemma GoesBefore(m: Book, now: int, path: string, rival: string, k: nat, l: nat)
    requires forall p :: p in m ==> Below(m[p], 3000.0)
    requires path in {"doh", "dot"} && PathHealth(m, path, now) != Unhealthy && path != rival
    requires rival == "plain" || PathHealth(m, rival, now) == Unhealthy
    requires var out := OrderTransports(m, ["doh", "dot", "plain"], now);
             k < |out| && l < |out| && out[k] == path && out[l] == rival
    ensures k < l
  {
    var chain := ["doh", "dot", "plain"];
    if l < k {
      EncryptedFirst(m, chain, now);
      if rival != "plain" {
        DownComesLater(m, chain, now, l, k);
      }
    }
  }

  /** Plain, or a transport that is down, in the chain's adapted order. */
  ghost predicate Lesser(m: Book, path: string, rival: string, now: int) {
    rival == "plain" || (rival != path && PathHealth(m, rival, now) == Unhealthy)
  }

  lemma AskedBefore(m: Book, now: int, path: string, k: nat)
    requires forall p :: p in m ==> Below(m[p], 3000.0)
    requires path in {"doh", "dot"} && PathHealth(m, path, now) != Unhealthy
    requires var out := OrderTransports(m, ["doh", "dot", "plain"], now);
             k < |out| && Lesser(m, path, out[k], now)
    ensures path in OrderTransports(m, ["doh", "dot", "plain"], now)[..k]
  {
    var out := OrderTransports(m, ["doh", "dot", "plain"], now);
    OrderTransportsPermutes(m, ["doh", "dot", "plain"], now);
    assert path in multiset(["doh", "dot", "plain"]);
    assert path in multiset(out);
    var j :| 0 <= j < |out| && out[j] == path;
    GoesBefore(m, now, path, out[k], j, k);
    assert out[..k][j] == path;
  }

  /**
   Adapting, with averages below three seconds: the reply handed on is plain's, or that of a transport that is
   down, only if each encrypted transport that is not down was asked before and had none.
  */
  lemma ChainAdapts(m: Book, now: int, legs: map<string, Leg>, path: string)
    requires forall p :: p in m ==> Below(m[p], 3000.0)
    requires path in {"doh", "dot"} && PathHealth(m, path, now) != Unhealthy
    ensures var h, paths := ChainTouched(Some(m), true, now), ChainPaths(Some(m), true, now);
            var reply := FirstAnswer(h, legs, paths).reply;
            reply.Some? ==>
              exists k: nat :: AnswersAt(h, legs, paths, k, reply)
                               && (Lesser(m, path, paths[k], now) ==> path in paths[..k])
  {
    var h, paths := ChainTouched(Some(m), true, now), ChainPaths(Some(m), true, now);
    if FirstAnswer(h, legs, paths).reply.Some? {
      assert paths[0..] == paths;
      FirstAnswerFrom(h, legs, paths, 0);
      var k: nat :| AnswersAt(h, legs, paths, k, FirstAnswer(h, legs, paths).reply);
      if Lesser(m, path, paths[k], now) {
        AskedBefore(m, now, path, k);
      }
    }
  }
}
