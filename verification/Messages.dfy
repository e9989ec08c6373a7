/**
 DNS messages as far as the resolver looks into them: the transaction Id, the question, the three
 record sections, the time to live of each record, and the address of A and AAAA records.
 The response code is not part of this model.
*/
module Messages {
  import opened Wrappers

  type Address = seq<int>

  type TTL = t: int | 0 <= t < 0x1_0000_0000

  datatype RR =
    | Addr(ip: Option<Address>, ttl: TTL)
    | Other(data: string, ttl: TTL)

  datatype Question = Question(name: string, qtype: string)

  datatype Sections = Sections(answer: seq<RR>, ns: seq<RR>, extra: seq<RR>)

  datatype Query = Query(id: bv16, question: seq<Question>)

  datatype Msg = Msg(id: bv16, question: seq<Question>, sections: Sections)

  /** SetReply keeps the Id and the first question of the request. */
  function SetReply(req: Query): Msg {
    Msg(req.id, if req.question == [] then [] else [req.question[0]], Sections([], [], []))
  }

  /** A stored or shared answer, re-stamped as the reply to one particular request. */
  function Restamp(shared: Sections, req: Query): Msg {
    SetReply(req).(sections := shared)
  }

  /** The banned networks, each as the set of addresses it covers. */
  datatype BanList = BanList(nets: seq<set<Address>>)

  predicate Banned(ban: BanList, rr: RR) {
    rr.Addr? && rr.ip.Some? && exists i :: 0 <= i < |ban.nets| && rr.ip.value in ban.nets[i]
  }

  /** No banned address in the Answer or Additional section. A nil list bans nothing. */
  predicate BanFree(ban: Option<BanList>, s: Sections) {
    ban.Some? ==>
      && (forall i :: 0 <= i < |s.answer| ==> !Banned(ban.value, s.answer[i]))
      && (forall i :: 0 <= i < |s.extra| ==> !Banned(ban.value, s.extra[i]))
  }

  /** A record in Answer or Additional has an address in a banned network. */
  ghost predicate HoldsBanned(ban: Option<BanList>, s: Sections) {
    ban.Some? && exists rr, i :: (rr in s.answer || rr in s.extra) && rr.Addr? && rr.ip.Some?
                                 && 0 <= i < |ban.value.nets| && rr.ip.value in ban.value.nets[i]
  }

  lemma HoldsBannedIff(ban: Option<BanList>, s: Sections)
    ensures HoldsBanned(ban, s) <==> !BanFree(ban, s)
  {
    if ban.Some? && !BanFree(ban, s) {
      if j :| 0 <= j < |s.answer| && Banned(ban.value, s.answer[j]) {
        assert s.answer[j] in s.answer;
      } else {
        var j :| 0 <= j < |s.extra| && Banned(ban.value, s.extra[j]);
        assert s.extra[j] in s.extra;
      }
    }
  }

  method ContainsIP(ban: BanList, ip: Address) returns (found: bool)
    ensures found <==> exists i :: 0 <= i < |ban.nets| && ip in ban.nets[i]
  {
    for i := 0 to |ban.nets|
      invariant forall j :: 0 <= j < i ==> ip !in ban.nets[j]
    {
      if ip in ban.nets[i] {
        return true;
      }
    }
    return false;
  }

  /** The scan of one section: the first banned address in it, if any. */
  method FirstBanned(ban: BanList, rrs: seq<RR>) returns (bad: Option<Address>)
    ensures bad.None? <==> forall i :: 0 <= i < |rrs| ==> !Banned(ban, rrs[i])
    ensures bad.Some? ==>
              exists i :: 0 <= i < |rrs| && Banned(ban, rrs[i]) && rrs[i].ip == bad
                          && forall j :: 0 <= j < i ==> !Banned(ban, rrs[j])
  {
    for i := 0 to |rrs|
      invariant forall j :: 0 <= j < i ==> !Banned(ban, rrs[j])
    {
      if rrs[i].Addr? && rrs[i].ip.Some? {
        var hit := ContainsIP(ban, rrs[i].ip.value);
        if hit {
          return rrs[i].ip;
        }
      }
    }
    return None;
  }

  /** BanList.ContainsAnswer: None means the answer is clean. */
  method ContainsAnswer(ban: Option<BanList>, s: Sections) returns (bad: Option<Address>)
    ensures bad.None? <==> BanFree(ban, s)
  {
    if ban.None? || ban.value.nets == [] {
      return None;
    }
    bad := FirstBanned(ban.value, s.answer);
    if bad.None? {
      bad := FirstBanned(ban.value, s.extra);
    }
  }
}
