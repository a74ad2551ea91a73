/** The resolver service (src/service/dnsproxy.rs). */
module DnsProxy {
  import opened Wrappers
  import opened BigEndian
  import opened Channels
  import opened Code
  import Text

  const MAX_RECORDS: nat := 4
  const TAG_IPV4: byte := 4
  const TAG_IPV6: byte := 6

  datatype Filter = OnlyV4 | OnlyV6 | Any

  predicate Accepts(filter: Filter, ip: IpAddr) {
    match filter
    case OnlyV4 => ip.V4?
    case OnlyV6 => ip.V6?
    case Any => true
  }

  /** A host name and a record type, and nothing else. */
  function ParseQuery(raw: Bytes): Option<(string, Filter)> {
    if !Text.IsAscii(raw) then None
    else
      var words := Text.Words(Text.Decode(raw), Text.IsSpace);
      if |words| != 2 then None
      else if words[1] == "A" then Some((words[0], OnlyV4))
      else if words[1] == "AAAA" then Some((words[0], OnlyV6))
      else if words[1] == "ANY" then Some((words[0], Any))
      else None
  }

  function TypeWord(filter: Filter): string {
    match filter
    case OnlyV4 => "A"
    case OnlyV6 => "AAAA"
    case Any => "ANY"
  }

  /** A query: a host name and one of the three types, with any white space
      around them. */
  ghost predicate IsQuery(raw: Bytes, host: string, kind: string) {
    && (kind == "A" || kind == "AAAA" || kind == "ANY")
    && exists text :: Text.Spells(raw, text) && Text.HasWords(text, [host, kind], Text.WHITE_SPACE)
  }

  lemma QueryIsWords(raw: Bytes, host: string, kind: string)
    ensures IsQuery(raw, host, kind)
       <==> (kind == "A" || kind == "AAAA" || kind == "ANY")
            && Text.IsAscii(raw) && Text.Words(Text.Decode(raw), Text.IsSpace) == [host, kind]
  {
    Text.DecodeReads(raw, Text.Decode(raw));
    Text.WordsAre(Text.Decode(raw), [host, kind]);
    forall text | Text.Spells(raw, text) ensures text == Text.Decode(raw) {
      Text.DecodeReads(raw, text);
    }
  }

  /** Exactly such data reads as a query, for that host and the filter of that
      type; anything else is a bad query. */
  lemma QueryReads(raw: Bytes, host: string, filter: Filter)
    ensures ParseQuery(raw) == Some((host, filter)) <==> IsQuery(raw, host, TypeWord(filter))
  {
    QueryIsWords(raw, host, TypeWord(filter));
    if ParseQuery(raw) == Some((host, filter)) {
      var words := Text.Words(Text.Decode(raw), Text.IsSpace);
      assert words == [words[0], words[1]];
    }
  }

  lemma QueryFilter(raw: Bytes, host: string, kind: string) returns (filter: Filter)
    requires IsQuery(raw, host, kind)
    ensures ParseQuery(raw) == Some((host, filter)) && kind == TypeWord(filter)
  {
    filter := if kind == "A" then OnlyV4 else if kind == "AAAA" then OnlyV6 else Any;
    QueryReads(raw, host, filter);
  }

  /** The addresses of one family that the filter accepts, in order. */
  function Family(v6: bool, filter: Filter, addrs: seq<IpAddr>): seq<IpAddr> {
    if addrs == [] then []
    else
      var rest := Family(v6, filter, addrs[1..]);
      if addrs[0].V6? == v6 && Accepts(filter, addrs[0]) then [addrs[0]] + rest else rest
  }

  /** IPv6 first, then IPv4, and of these the first four. */
  function Selected(filter: Filter, addrs: seq<IpAddr>): (selected: seq<IpAddr>)
    ensures |selected| <= MAX_RECORDS
  {
    var all := Family(true, filter, addrs) + Family(false, filter, addrs);
    if |all| <= MAX_RECORDS then all else all[..MAX_RECORDS]
  }

  function Record(ip: IpAddr): Bytes {
    match ip
    case V4(v4) => [TAG_IPV4] + v4
    case V6(v6) => [TAG_IPV6] + v6
  }

  function Records(ips: seq<IpAddr>): Bytes {
    if ips == [] then [] else Record(ips[0]) + Records(ips[1..])
  }

  function Reply(filter: Filter, addrs: seq<IpAddr>): Bytes {
    var selected := Selected(filter, addrs);
    [|selected|] + Records(selected)
  }

  method PutRecord(buffer: Bytes, ip: IpAddr) returns (longer: Bytes)
    ensures longer == buffer + Record(ip)
  {
    longer := buffer;
    match ip
    case V4(v4) =>
      longer := longer + [TAG_IPV4];
      longer := longer + v4;
    case V6(v6) =>
      longer := longer + [TAG_IPV6];
      longer := longer + v6;
  }

  method PutRecords(buffer: Bytes, ips: seq<IpAddr>) returns (longer: Bytes)
    ensures longer == buffer + Records(ips)
  {
    longer := buffer;
    for i := 0 to |ips|
      invariant Pending(longer, ips, i) == buffer + Records(ips)
    {
      PendingRecord(longer, ips, i);
      longer := PutRecord(longer, ips[i]);
    }
  }

  /** The buffer once the records from the i-th on are written to it too. */
  ghost function Pending(written: Bytes, ips: seq<IpAddr>, i: nat): Bytes
    requires i <= |ips|
  {
    written + Records(ips[i..])
  }

  lemma PendingRecord(written: Bytes, ips: seq<IpAddr>, i: nat)
    requires i < |ips|
    ensures Pending(written, ips, i) == Pending(written + Record(ips[i]), ips, i + 1)
  {
    assert ips[i..][1..] == ips[i + 1..];
    assert written + (Record(ips[i]) + Records(ips[i + 1..])) == written + Record(ips[i]) + Records(ips[i + 1..]);
  }

  method EncodeReply(filter: Filter, addrs: seq<IpAddr>) returns (reply: Bytes)
    ensures reply == Reply(filter, addrs)
  {
    var selected := Selected(filter, addrs);
    reply := [|selected|];
    reply := PutRecords(reply, selected);
  }

  /** Reads `count` records, which have to be all there is. */
  function DecodeRecords(count: nat, raw: Bytes): Option<seq<IpAddr>> {
    if count == 0 then if raw == [] then Some([]) else None
    else if |raw| >= 5 && raw[0] == 4 then
      match DecodeRecords(count - 1, raw[5..])
      case Some(rest) => Some([V4(raw[1..5])] + rest)
      case None => None
    else if |raw| >= 17 && raw[0] == 6 then
      match DecodeRecords(count - 1, raw[17..])
      case Some(rest) => Some([V6(raw[1..17])] + rest)
      case None => None
    else None
  }

  /** How a client reads a reply: a record count, then the records. */
  function DecodeReply(raw: Bytes): Option<seq<IpAddr>> {
    if raw == [] then None else DecodeRecords(raw[0], raw[1..])
  }

  lemma {:induction false} RecordsDecode(ips: seq<IpAddr>)
    ensures DecodeRecords(|ips|, Records(ips)) == Some(ips)
    ensures |Records(ips)| <= 17 * |ips|
  {
    if ips != [] {
      RecordsDecode(ips[1..]);
      var raw := Records(ips);
      match ips[0] {
        case V4(v4) =>
          assert raw[0] == 4 && raw[1..5] == v4 && raw[5..] == Records(ips[1..]);
        case V6(v6) =>
          assert raw[0] == 6 && raw[1..17] == v6 && raw[17..] == Records(ips[1..]);
      }
      assert [ips[0]] + ips[1..] == ips;
    }
  }

  /** A client decodes every reply, to exactly the selected addresses. */
  lemma ReplyDecodes(filter: Filter, addrs: seq<IpAddr>)
    ensures DecodeReply(Reply(filter, addrs)) == Some(Selected(filter, addrs))
    ensures 1 <= |Reply(filter, addrs)| <= 69
  {
    var selected := Selected(filter, addrs);
    RecordsDecode(selected);
    assert Reply(filter, addrs)[1..] == Records(selected);
  }

  /** The addresses found, each at its first place only. */
  function Distinct(found: seq<IpAddr>): seq<IpAddr> {
    if found == [] then []
    else
      var before := Distinct(found[..|found| - 1]);
      var ip := found[|found| - 1];
      if ip in before then before else before + [ip]
  }

  /** De-duplication keeps every address once and keeps their order. */
  lemma {:induction false} DistinctIsSet(found: seq<IpAddr>)
    ensures forall ip :: ip in Distinct(found) <==> ip in found
    ensures forall i, j | 0 <= i < j < |Distinct(found)| :: Distinct(found)[i] != Distinct(found)[j]
  {
    if found != [] {
      DistinctIsSet(found[..|found| - 1]);
      assert found == found[..|found| - 1] + [found[|found| - 1]];
    }
  }

  method Lookup(found: Option<seq<IpAddr>>) returns (addrs: seq<IpAddr>)
    ensures addrs == if found.Some? then Distinct(found.value) else []
  {
    addrs := [];
    if found == None {
      return;
    }
    assert found.value[..|found.value|] == found.value;
    for i := 0 to |found.value|
      invariant addrs == Distinct(found.value[..i])
    {
      assert found.value[..i + 1][..i] == found.value[..i];
      if found.value[i] !in addrs {
        addrs := addrs + [found.value[i]];
      }
    }
  }

  /** The reply to a query, given what a lookup of its host name finds. A bad
      query and a failed lookup are answered with no records. */
  function Answer(raw: Bytes, found: Option<seq<IpAddr>>): Bytes {
    match ParseQuery(raw)
    case None => Reply(Any, [])
    case Some((_, filter)) => Reply(filter, if found.Some? then Distinct(found.value) else [])
  }

  method AnswerQuery(raw: Bytes, found: Option<seq<IpAddr>>) returns (reply: Bytes)
    ensures reply == Answer(raw, found)
  {
    match ParseQuery(raw)
    case None =>
      reply := EncodeReply(Any, []);
    case Some((_, filter)) =>
      var addrs := Lookup(found);
      reply := EncodeReply(filter, addrs);
  }

  function Answers(queries: seq<(Bytes, Option<seq<IpAddr>>)>): (answers: seq<Bytes>)
    ensures |answers| == |queries|
  {
    seq(|queries|, i requires 0 <= i < |queries| => Answer(queries[i].0, queries[i].1))
  }

  lemma AnswersOneMore(queries: seq<(Bytes, Option<seq<IpAddr>>)>, raw: Bytes, found: Option<seq<IpAddr>>)
    ensures Answers(queries + [(raw, found)]) == Answers(queries) + [Answer(raw, found)]
  {
  }

  lemma AnswersNext(queries: seq<(Bytes, Option<seq<IpAddr>>)>, i: nat, sent: seq<Bytes>)
    requires i < |queries|
    ensures sent + Answers(queries[..i]) + [Answer(queries[i].0, queries[i].1)] == sent + Answers(queries[..i + 1])
  {
    assert queries[..i + 1] == queries[..i] + [(queries[i].0, queries[i].1)];
    AnswersOneMore(queries[..i], queries[i].0, queries[i].1);
  }

  /** The service's loop: one reply for each query, in the order of the
      queries, for as long as the session reads its relay. */
  method Serve(queries: seq<(Bytes, Option<seq<IpAddr>>)>, relay: Channel<Bytes>) returns (ok: bool)
    modifies relay`queue
    ensures relay.queue == old(relay.queue) + if relay.open then Answers(queries) else []
    ensures ok == (relay.open || queries == [])
  {
    for i := 0 to |queries|
      invariant relay.queue == old(relay.queue) + Answers(queries[..i])
      invariant i > 0 ==> relay.open
    {
      var reply := AnswerQuery(queries[i].0, queries[i].1);
      var sent := relay.Send(reply);
      if !sent {
        return false;
      }
      AnswersNext(queries, i, old(relay.queue));
    }
    assert queries[..|queries|] == queries;
    return true;
  }
}
