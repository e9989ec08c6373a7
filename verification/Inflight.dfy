/**
 The in-flight table in place: each critical section of attemptUpstream and resolveCoalesced as a
 method on shared records, proved to be the protocol step of that name. The phases and the creator
 of a record are ghost: they are the callers' program counters, not state of the table.
*/
module InflightTable {
  import opened Wrappers
  import opened Messages
  import opened Coalescing

  class Record {
    const key: string
    ghost const leader: Caller
    var outcome: Option<Coalescing.Upstream>
    var done: bool

    constructor (key: string, ghost leader: Caller)
      ensures this.key == key && this.leader == leader && outcome == None && !done
    {
      this.key, this.leader := key, leader;
      outcome, done := None, false;
    }

    ghost function View(): Call
      reads this
    {
      Call(key, outcome, done)
    }
  }

  class Group {
    const site: Site
    var inflight: map<string, Record>
    var called: nat
    var coalesced: nat
    ghost var phase: map<Caller, Phase>
    ghost var records: map<Caller, Record>

    ghost predicate Valid()
      reads this
    {
      && (forall p :: p in records ==> records[p].leader == p)
      && (forall k :: k in inflight ==> inflight[k].leader in records && records[inflight[k].leader] == inflight[k])
    }

    ghost function Entries(): map<string, Caller>
      reads this`inflight
    {
      map k | k in inflight :: inflight[k].leader
    }

    ghost function Calls(): map<Caller, Call>
      reads this`records, records.Values
    {
      map p | p in records :: records[p].View()
    }

    ghost function View(): State
      reads this, records.Values
    {
      State(phase, Entries(), Calls(), called, coalesced)
    }

    constructor (c: Config)
      ensures Valid() && Init(c, View()) && site == c.site
    {
      site := c.site;
      inflight, called, coalesced := map[], 0, 0;
      phase, records := map p | p in c.asks :: Idle, map[];
    }

    /** A new call record, filed under its key. */
    method Create(ghost p: Caller, key: string) returns (call: Record)
      requires Valid() && p !in records
      modifies this`inflight, this`records
      ensures Valid() && fresh(call) && call.leader == p && inflight == old(inflight)[key := call]
      ensures records == old(records)[p := call]
      ensures Entries() == old(Entries())[key := p] && Calls() == old(Calls())[p := Call(key, None, false)]
    {
      call := new Record(key, p);
      inflight := inflight[key := call];
      records := records[p := call];
      assert Calls()[p] == call.View();
    }

    /** Under the mutex: find the call of this key, or put a new one there. */
    method Enter(ghost c: Config, ghost p: Caller, key: string) returns (call: Record, leads: bool)
      requires Valid() && p in c.asks && c.asks[p].key == key && p in phase && phase[p] == Idle && p !in records
      modifies this
      ensures Valid() && Arrive(c, old(View()), View(), p)
      ensures leads <==> key !in old(inflight)
      ensures call.leader in records && records[call.leader] == call
      ensures if leads then fresh(call) && call.leader == p else phase[p] == Waiting(call.leader)
    {
      if key in inflight {
        call, leads := inflight[key], false;
        phase := phase[p := Waiting(call.leader)];
      } else {
        call := Create(p, key);
        leads := true;
        phase := phase[p := Running];
      }
    }

    /** The leader's upstream call has returned. */
    method Write(ghost c: Config, ghost p: Caller, call: Record, u: Coalescing.Upstream)
      requires Valid() && c.site == site && p in phase && phase[p] == Running && p in records && records[p] == call
      modifies this`phase, this`called, call
      ensures Valid() && Complete(c, old(View()), View(), p, u) && call.outcome == Some(u)
    {
      assert Calls()[p] == call.View();
      call.outcome := Some(u);
      if Counts(site, u) {
        called := called + 1;
      }
      phase := phase[p := Finishing];
      assert Calls()[p] == call.View();
    }

    /** Under the mutex again: the leader takes the entry of its key out. */
    method Leave(ghost c: Config, ghost p: Caller, key: string)
      requires Valid() && p in c.asks && c.asks[p].key == key && p in phase && phase[p] == Finishing
      modifies this`phase, this`inflight
      ensures Valid() && Remove(c, old(View()), View(), p)
    {
      inflight := inflight - {key};
      phase := phase[p := Signalling];
      assert Entries() == old(Entries()) - {key};
    }

    /** The leader releases the waiters and answers its own request. */
    method Done(ghost c: Config, ghost p: Caller, call: Record, req: Query) returns (r: Result)
      requires Valid() && c.site == site && p in c.asks && c.asks[p].query == req
      requires p in phase && phase[p] == Signalling && p in records && records[p] == call && call.outcome.Some?
      modifies this`phase, call
      ensures Valid() && Signal(c, old(View()), View(), p) && View().phase[p] == Returned(p, r)
    {
      assert Calls()[p] == call.View();
      r := ReplyFrom(call, req);
      call.done := true;
      phase := phase[p := Returned(p, r)];
      assert Calls()[p] == call.View();
    }

    /** A waiter, released: it counts itself and answers its own request. */
    method Joined(ghost c: Config, ghost p: Caller, call: Record, req: Query) returns (r: Result)
      requires Valid() && c.site == site && p in c.asks && c.asks[p].query == req
      requires p in phase && phase[p] == Waiting(call.leader) && call.leader in records && records[call.leader] == call
      requires call.done && call.outcome.Some?
      modifies this`phase, this`coalesced
      ensures Valid() && Wake(c, old(View()), View(), p) && View().phase[p] == Returned(call.leader, r)
    {
      assert Calls()[call.leader] == call.View();
      coalesced := coalesced + 1;
      r := ReplyFrom(call, req);
      phase := phase[p := Returned(call.leader, r)];
    }

    /** The error first, then the shared answer, re-stamped for this request. */
    method ReplyFrom(call: Record, req: Query) returns (r: Result)
      requires call.outcome.Some?
      ensures r == Deliver(site, call.outcome.value, req)
    {
      match call.outcome.value
      case Failed(error) => r := Error(error);
      case NoClient => r := Error(ErrorText(NoClient));
      case Nothing => r := if site.Relay? then Crash else Error(ErrorText(Nothing));
      case Replied(sections) => r := Answer(Restamp(sections, req));
    }
  }
}
