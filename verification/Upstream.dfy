/** The upstream clients and the chain over them: loops that record every attempt in the tracker. */
module Upstream {
  import opened Wrappers
  import opened Messages
  import opened HealthSpec
  import opened TrackerSpec
  import opened Tracking
  import opened UpstreamSpec
  import Effect = TrackerSpec

  // ---------- an optional tracker ----------

  ghost function ViewOf(t: Tracker?): HealthView
    reads t, if t == null then {} else t.stats.Values
  {
    if t == null then None else Some(t.View())
  }

  /** The tracker is still sound; records it has gained are new objects. */
  twostate predicate Kept(t: Tracker?)
    reads t
  {
    t != null ==> t.Valid() && forall s :: s in t.stats.Values && s !in old(t.stats).Values ==> fresh(s)
  }

  method OrderServers(t: Tracker?, path: string, servers: seq<string>, now: int) returns (order: seq<string>)
    requires t != null ==> t.Valid()
    modifies t, if t == null then {} else t.stats.Values
    ensures Kept(t) && ViewOf(t) == Touched(old(ViewOf(t)), path, servers, now)
    ensures order == Preferred(old(ViewOf(t)), path, servers, now)
  {
    order := servers;
    if t != null {
      order := t.Order(path, servers, now);
    }
  }

  method NoteFailure(t: Tracker?, r: Rules, server: string, a: Attempt)
    requires (t != null ==> t.Valid()) && !Accepts(r, a.exchange)
    modifies t, if t == null then {} else t.stats.Values
    ensures Kept(t) && ViewOf(t) == Note(r, old(ViewOf(t)), server, a)
  {
    if t != null {
      t.RecordFailure(Place(r.path, server), a.at);
    }
  }

  method NoteSuccess(t: Tracker?, r: Rules, server: string, a: Attempt)
    requires (t != null ==> t.Valid()) && Accepts(r, a.exchange)
    modifies t, if t == null then {} else t.stats.Values
    ensures Kept(t) && ViewOf(t) == Note(r, old(ViewOf(t)), server, a)
  {
    if t != null {
      t.RecordSuccess(Place(r.path, server), a.took, a.at);
    }
  }

  /** The bookkeeping of a loop over the servers: i attempts made, none of them acceptable. */
  ghost predicate Failing(leg: Leg, order: seq<string>, start: HealthView, i: nat, h: HealthView) {
    && i <= |order| && h == After(leg.rules, start, order, leg.net, i)
    && Attempts(leg.rules, order, leg.net, leg.ended, 0) == Attempts(leg.rules, order, leg.net, leg.ended, i)
    && ReplyAfter(leg.rules, order, leg.net, i).None?
  }

  /** What the loop has done when it ends after n attempts. */
  ghost predicate Ends(leg: Leg, order: seq<string>, start: HealthView, reply: Option<Msg>, h: HealthView) {
    var n := Attempts(leg.rules, order, leg.net, leg.ended, 0);
    && n <= |order| && h == After(leg.rules, start, order, leg.net, n)
    && reply == ReplyAfter(leg.rules, order, leg.net, n)
  }

  lemma Succeeds(leg: Leg, order: seq<string>, start: HealthView, i: nat, h: HealthView, a: Attempt)
    requires Failing(leg, order, start, i, h) && i < |order| && !leg.ended(i) && a == leg.net(order[i], i)
    requires Accepts(leg.rules, a.exchange)
    ensures Ends(leg, order, start, Some(a.exchange.msg), Note(leg.rules, h, order[i], a))
  {}

  lemma Proceeds(leg: Leg, order: seq<string>, start: HealthView, i: nat, h: HealthView)
    requires Failing(leg, order, start, i, h) && i < |order| && !leg.ended(i)
    ensures var a := leg.net(order[i], i);
            if Accepts(leg.rules, a.exchange)
            then Ends(leg, order, start, Some(a.exchange.msg), Note(leg.rules, h, order[i], a))
            else Failing(leg, order, start, i + 1, Note(leg.rules, h, order[i], a))
  {}

  lemma ServedAs(leg: Leg, before: HealthView, reply: Option<Msg>, h: HealthView)
    requires leg.servers != [] && leg.ready && leg.tracked == before.Some?
    requires Ends(leg, Preferred(before, leg.rules.path, leg.servers, leg.now),
                  Touched(before, leg.rules.path, leg.servers, leg.now), reply, h)
    ensures Served(reply, h) == Serve(leg, before)
  {
    if before.None? {
      NoHealth(leg.rules, OrderOf(leg, before), leg.net, AttemptsOf(leg, before));
    }
  }

  lemma {:induction false} NoHealth(r: Rules, order: seq<string>, net: Network, n: nat)
    requires n <= |order|
    ensures After(r, None, order, net, n).None?
  {
    if n > 0 {
      NoHealth(r, order, net, n - 1);
    }
  }

  // ---------- clients ----------

  /** DNS over HTTPS: ready says whether the request packs. */
  class DoHClient {
    const servers: seq<string>
    const tracker: Tracker?

    constructor (servers: seq<string>, tracker: Tracker?)
      ensures this.servers == servers && this.tracker == tracker
    {
      this.servers, this.tracker := servers, tracker;
    }

    function Run(ready: bool, net: Network, now: int): Leg {
      Leg(Rules("doh", false, None), servers, tracker != null, ready, net, _ => false, now)
    }

    method Resolve(ready: bool, net: Network, now: int) returns (reply: Option<Msg>)
      requires tracker != null ==> tracker.Valid()
      modifies tracker, if tracker == null then {} else tracker.stats.Values
      ensures Kept(tracker)
      ensures Served(reply, ViewOf(tracker)) == Serve(Run(ready, net, now), old(ViewOf(tracker)))
    {
      if servers == [] || !ready {
        return None;
      }
      var leg := Run(ready, net, now);
      ghost var before := ViewOf(tracker);
      var order := OrderServers(tracker, leg.rules.path, servers, now);
      ghost var start := ViewOf(tracker);
      for i := 0 to |order|
        invariant Kept(tracker) && Failing(leg, order, start, i, ViewOf(tracker))
      {
        var a := net(order[i], i);
        if a.exchange.NoReply? {
          NoteFailure(tracker, leg.rules, order[i], a);
          continue;
        }
        Succeeds(leg, order, start, i, ViewOf(tracker), a);
        NoteSuccess(tracker, leg.rules, order[i], a);
        reply := Some(a.exchange.msg);
        ServedAs(leg, before, reply, ViewOf(tracker));
        return;
      }
      reply := None;
      ServedAs(leg, before, reply, ViewOf(tracker));
    }
  }

  /** DNS over TLS: a truncated reply is a failure. */
  class DoTClient {
    const servers: seq<string>
    const tracker: Tracker?

    constructor (servers: seq<string>, tracker: Tracker?)
      ensures this.servers == servers && this.tracker == tracker
    {
      this.servers, this.tracker := servers, tracker;
    }

    function Run(net: Network, now: int): Leg {
      Leg(Rules("dot", true, None), servers, tracker != null, true, net, _ => false, now)
    }

    method Resolve(net: Network, now: int) returns (reply: Option<Msg>)
      requires tracker != null ==> tracker.Valid()
      modifies tracker, if tracker == null then {} else tracker.stats.Values
      ensures Kept(tracker)
      ensures Served(reply, ViewOf(tracker)) == Serve(Run(net, now), old(ViewOf(tracker)))
    {
      if servers == [] {
        return None;
      }
      var leg := Run(net, now);
      ghost var before := ViewOf(tracker);
      var order := OrderServers(tracker, leg.rules.path, servers, now);
      ghost var start := ViewOf(tracker);
      for i := 0 to |order|
        invariant Kept(tracker) && Failing(leg, order, start, i, ViewOf(tracker))
      {
        var a := net(order[i], i);
        if a.exchange.NoReply? {
          NoteFailure(tracker, leg.rules, order[i], a);
          continue;
        }
        if a.exchange.truncated {
          NoteFailure(tracker, leg.rules, order[i], a);
          continue;
        }
        Succeeds(leg, order, start, i, ViewOf(tracker), a);
        NoteSuccess(tracker, leg.rules, order[i], a);
        reply := Some(a.exchange.msg);
        ServedAs(leg, before, reply, ViewOf(tracker));
        return;
      }
      reply := None;
      ServedAs(leg, before, reply, ViewOf(tracker));
    }
  }

  /** Plain DNS: it also refuses banned answers, and stops when the caller gives up. */
  class PlainClient {
    const servers: seq<string>
    const tracker: Tracker?
    const ban: Option<BanList>

    constructor (servers: seq<string>, tracker: Tracker?, ban: Option<BanList>)
      ensures this.servers == servers && this.tracker == tracker && this.ban == ban
    {
      this.servers, this.tracker, this.ban := servers, tracker, ban;
    }

    function Run(net: Network, ended: nat -> bool, now: int): Leg {
      Leg(Rules("plain", true, ban), servers, tracker != null, true, net, ended, now)
    }

    /** No reply, a truncated one, or one with a banned address. */
    method Refuses(x: Exchange) returns (refused: bool)
      ensures refused <==> !Accepts(Rules("plain", true, ban), x)
    {
      if x.NoReply? {
        return true;
      }
      if x.truncated {
        return true;
      }
      if ban.Some? {
        var bad := ContainsAnswer(ban, x.msg.sections);
        return bad.Some?;
      }
      return false;
    }

    /** One server's turn. */
    method Ask(server: string, a: Attempt) returns (reply: Option<Msg>)
      requires tracker != null ==> tracker.Valid()
      modifies tracker, if tracker == null then {} else tracker.stats.Values
      ensures Kept(tracker)
      ensures ViewOf(tracker) == Note(Rules("plain", true, ban), old(ViewOf(tracker)), server, a)
      ensures reply == if Accepts(Rules("plain", true, ban), a.exchange) then Some(a.exchange.msg) else None
    {
      var refused := Refuses(a.exchange);
      if refused {
        NoteFailure(tracker, Rules("plain", true, ban), server, a);
        return None;
      }
      NoteSuccess(tracker, Rules("plain", true, ban), server, a);
      return Some(a.exchange.msg);
    }

    method Resolve(net: Network, ended: nat -> bool, now: int) returns (reply: Option<Msg>)
      requires tracker != null ==> tracker.Valid()
      modifies tracker, if tracker == null then {} else tracker.stats.Values
      ensures Kept(tracker)
      ensures Served(reply, ViewOf(tracker)) == Serve(Run(net, ended, now), old(ViewOf(tracker)))
    {
      if servers == [] {
        return None;
      }
      var leg := Run(net, ended, now);
      ghost var before := ViewOf(tracker);
      var order := OrderServers(tracker, leg.rules.path, servers, now);
      ghost var start := ViewOf(tracker);
      var i := 0;
      while i < |order|
        invariant Kept(tracker) && Failing(leg, order, start, i, ViewOf(tracker))
      {
        if ended(i) {
          break;
        }
        Proceeds(leg, order, start, i, ViewOf(tracker));
        reply := Ask(order[i], net(order[i], i));
        if reply.Some? {
          ServedAs(leg, before, reply, ViewOf(tracker));
          return;
        }
        i := i + 1;
      }
      reply := None;
      ServedAs(leg, before, reply, ViewOf(tracker));
    }
  }

  // ---------- the chain ----------

  /** What the outside world does during one use of the chain. */
  datatype World = World(
    ready: bool, doh: Network, dot: Network, plain: Network, ended: nat -> bool,
    now: int, dohAt: int, dotAt: int, plainAt: int)

  class Chain {
    const doh: DoHClient?
    const dot: DoTClient?
    const plain: PlainClient?
    const health: Tracker?
    const adaptive: bool

    constructor (doh: DoHClient?, dot: DoTClient?, plain: PlainClient?, health: Tracker?, adaptive: bool)
      ensures this.doh == doh && this.dot == dot && this.plain == plain
      ensures this.health == health && this.adaptive == adaptive
    {
      this.doh, this.dot, this.plain, this.health, this.adaptive := doh, dot, plain, health, adaptive;
    }

    /** Clients record in the chain's tracker, or nowhere. */
    ghost predicate OneTracker() {
      && (doh != null && doh.tracker != null ==> doh.tracker == health)
      && (dot != null && dot.tracker != null ==> dot.tracker == health)
      && (plain != null && plain.tracker != null ==> plain.tracker == health)
    }

    ghost function Legs(w: World): map<string, Leg> {
      (if doh == null then map[] else map["doh" := doh.Run(w.ready, w.doh, w.dohAt)])
      + (if dot == null then map[] else map["dot" := dot.Run(w.dot, w.dotAt)])
      + (if plain == null then map[] else map["plain" := plain.Run(w.plain, w.ended, w.plainAt)])
    }

    /** One transport's turn; one that is not set up is skipped. */
    method Try(path: string, w: World) returns (skipped: bool, reply: Option<Msg>)
      requires OneTracker() && (health != null ==> health.Valid())
      modifies health, if health == null then {} else health.stats.Values
      ensures Kept(health) && skipped == (path !in Legs(w))
      ensures skipped ==> ViewOf(health) == old(ViewOf(health)) && reply == None
      ensures !skipped ==> Served(reply, ViewOf(health)) == Serve(Legs(w)[path], old(ViewOf(health)))
    {
      skipped, reply := true, None;
      if path == "doh" {
        if doh != null {
          skipped := false;
          reply := doh.Resolve(w.ready, w.doh, w.dohAt);
        }
      } else if path == "dot" {
        if dot != null {
          skipped := false;
          reply := dot.Resolve(w.dot, w.dotAt);
        }
      } else if path == "plain" {
        if plain != null {
          skipped := false;
          reply := plain.Resolve(w.plain, w.ended, w.plainAt);
        }
      }
    }

    /** The loop over the transports. */
    method TryEach(paths: seq<string>, w: World) returns (reply: Option<Msg>)
      requires OneTracker() && (health != null ==> health.Valid())
      modifies health, if health == null then {} else health.stats.Values
      ensures Kept(health)
      ensures Served(reply, ViewOf(health)) == FirstAnswer(old(ViewOf(health)), Legs(w), paths)
    {
      for i := 0 to |paths|
        invariant Kept(health)
        invariant FirstAnswer(old(ViewOf(health)), Legs(w), paths) == FirstAnswer(ViewOf(health), Legs(w), paths[i..])
      {
        NextPath(ViewOf(health), Legs(w), paths, i);
        var skipped;
        skipped, reply := Try(paths[i], w);
        if reply.Some? {
          return;
        }
      }
      reply := None;
    }

    method Resolve(w: World) returns (reply: Option<Msg>)
      requires OneTracker() && (health != null ==> health.Valid())
      modifies health, if health == null then {} else health.stats.Values
      ensures Kept(health)
      ensures Served(reply, ViewOf(health)) ==
              FirstAnswer(ChainTouched(old(ViewOf(health)), adaptive, w.now), Legs(w),
                          ChainPaths(old(ViewOf(health)), adaptive, w.now))
    {
      var paths := ["doh", "dot", "plain"];
      if adaptive && health != null {
        paths := health.OrderTransports(paths, w.now);
      }
      reply := TryEach(paths, w);
    }
  }
}
