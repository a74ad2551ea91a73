/** Which addresses a resolver client should get, independently of how the
    service picks them, and that it gets those. */
module DnsChoice {
  import opened Wrappers
  import opened BigEndian
  import opened Sequences
  import opened Code
  import opened DnsProxy

  /** Where an address is first found. */
  function Place(ips: seq<IpAddr>, ip: IpAddr): (n: nat)
    ensures n <= |ips| && (n < |ips| ==> ips[n] == ip)
    ensures n == |ips| <==> ip !in ips
  {
    if ips == [] || ips[0] == ip then 0 else 1 + Place(ips[1..], ip)
  }

  /** IPv6 before IPv4, and within a family in the order found. */
  predicate Prefers(found: seq<IpAddr>, x: IpAddr, y: IpAddr) {
    if x.V6? == y.V6? then Place(found, x) < Place(found, y) else x.V6?
  }

  ghost predicate Ranked(found: seq<IpAddr>, ips: seq<IpAddr>) {
    forall i, j | 0 <= i < j < |ips| :: Prefers(found, ips[i], ips[j])
  }

  /** What a type asks for: A for IPv4, AAAA for IPv6, ANY for both. */
  ghost predicate Wanted(kind: string, ip: IpAddr) {
    match ip
    case V4(_) => kind == "A" || kind == "ANY"
    case V6(_) => kind == "AAAA" || kind == "ANY"
  }

  /** What a client should get: at most four of the addresses found, all of a
      family that its query asks for, in order of preference, and one is left
      out only if four preferred ones were taken. */
  ghost predicate GoodChoice(kind: string, found: seq<IpAddr>, chosen: seq<IpAddr>) {
    && |chosen| <= 4
    && (forall ip | ip in chosen :: ip in found && Wanted(kind, ip))
    && Ranked(found, chosen)
    && (forall ip | ip in found && Wanted(kind, ip) && ip !in chosen :: AllBetter(found, chosen, ip))
  }

  ghost predicate AllBetter(found: seq<IpAddr>, chosen: seq<IpAddr>, ip: IpAddr) {
    |chosen| == 4 && forall i | 0 <= i < |chosen| :: Prefers(found, chosen[i], ip)
  }

  lemma AcceptsWanted(filter: Filter, ip: IpAddr)
    ensures Accepts(filter, ip) <==> Wanted(TypeWord(filter), ip)
  {
    assert "A" != "AAAA" && "A" != "ANY" && "AAAA" != "ANY" by {
      assert |"A"| == 1 && |"AAAA"| == 4 && |"ANY"| == 3;
    }
  }

  // ----- there is only one good choice -----

  lemma {:induction false} GoodChoiceIsUnique(kind: string, found: seq<IpAddr>, a: seq<IpAddr>, b: seq<IpAddr>)
    requires GoodChoice(kind, found, a) && GoodChoice(kind, found, b)
    ensures a == b
  {
    AgreeUpTo(kind, found, a, b, if |a| < |b| then |a| else |b|);
    if |a| > |b| {
      BestComesNext(kind, found, a, b, |b|);
    } else if |b| > |a| {
      BestComesNext(kind, found, b, a, |a|);
    }
  }

  lemma {:induction false} AgreeUpTo(kind: string, found: seq<IpAddr>, a: seq<IpAddr>, b: seq<IpAddr>, n: nat)
    requires GoodChoice(kind, found, a) && GoodChoice(kind, found, b) && n <= |a| && n <= |b|
    ensures a[..n] == b[..n]
  {
    if n > 0 {
      AgreeUpTo(kind, found, a, b, n - 1);
      BestComesNext(kind, found, a, b, n - 1);
      BestComesNext(kind, found, b, a, n - 1);
      assert a[..n] == a[..n - 1] + [a[n - 1]] && b[..n] == b[..n - 1] + [b[n - 1]];
    }
  }

  /** Of two good choices that agree so far, the other one goes on too, with
      the same address or with a better one. */
  lemma BestComesNext(kind: string, found: seq<IpAddr>, a: seq<IpAddr>, b: seq<IpAddr>, n: nat)
    requires GoodChoice(kind, found, a) && GoodChoice(kind, found, b)
    requires n < |a| && n <= |b| && a[..n] == b[..n]
    ensures n < |b| && (a[n] != b[n] ==> Prefers(found, b[n], a[n]))
  {
    forall i | 0 <= i < n ensures b[i] != a[n] {
      assert b[i] == a[..n][i] && Prefers(found, a[i], a[n]);
    }
    if a[n] !in b {
      assert AllBetter(found, b, a[n]);
    }
  }

  // ----- the service makes it -----

  lemma PlaceInRest(found: seq<IpAddr>, x: IpAddr)
    requires found != [] && NoRepeats(found) && x in found[1..]
    ensures Place(found, x) == 1 + Place(found[1..], x)
  {
    assert found[0] !in found[1..];
  }

  /** Filtering keeps exactly the acceptable addresses of one family, in the
      order found. */
  lemma {:induction false} FamilyMembers(v6: bool, filter: Filter, found: seq<IpAddr>)
    ensures forall ip :: ip in Family(v6, filter, found) <==> ip in found && ip.V6? == v6 && Accepts(filter, ip)
  {
    if found != [] {
      FamilyMembers(v6, filter, found[1..]);
      assert found == [found[0]] + found[1..];
    }
  }

  lemma {:induction false} FamilyRanked(v6: bool, filter: Filter, found: seq<IpAddr>)
    requires NoRepeats(found)
    ensures Ranked(found, Family(v6, filter, found))
  {
    if found != [] {
      var rest := Family(v6, filter, found[1..]);
      FamilyRanked(v6, filter, found[1..]);
      FamilyMembers(v6, filter, found[1..]);
      forall i, j | 0 <= i < j < |rest| ensures Prefers(found, rest[i], rest[j]) {
        assert rest[i] in rest && rest[j] in rest && Prefers(found[1..], rest[i], rest[j]);
        PlaceInRest(found, rest[i]);
        PlaceInRest(found, rest[j]);
      }
      forall j | 0 <= j < |rest| ensures rest[j].V6? == v6 && Place(found, rest[j]) > 0 {
        assert rest[j] in rest;
        PlaceInRest(found, rest[j]);
      }
    }
  }

  lemma RankedConcat(found: seq<IpAddr>, v6s: seq<IpAddr>, v4s: seq<IpAddr>)
    requires Ranked(found, v6s) && Ranked(found, v4s)
    requires forall ip | ip in v6s :: ip.V6?
    requires forall ip | ip in v4s :: ip.V4?
    ensures Ranked(found, v6s + v4s)
  {
    var all := v6s + v4s;
    forall i, j | 0 <= i < j < |all| ensures Prefers(found, all[i], all[j]) {
      if j < |v6s| {
        assert Prefers(found, v6s[i], v6s[j]);
      } else if i < |v6s| {
        assert all[i] in v6s && all[j] in v4s;
      } else {
        assert Prefers(found, v4s[i - |v6s|], v4s[j - |v6s|]);
      }
    }
  }

  /** Filtering, chaining and taking the first four make the good choice for
      the type that the filter stands for. */
  lemma SelectedIsGood(filter: Filter, found: seq<IpAddr>)
    requires NoRepeats(found)
    ensures GoodChoice(TypeWord(filter), found, Selected(filter, found))
  {
    var v6s, v4s := Family(true, filter, found), Family(false, filter, found);
    FamilyMembers(true, filter, found);
    FamilyMembers(false, filter, found);
    FamilyRanked(true, filter, found);
    FamilyRanked(false, filter, found);
    RankedConcat(found, v6s, v4s);
    forall ip ensures Accepts(filter, ip) <==> Wanted(TypeWord(filter), ip) {
      AcceptsWanted(filter, ip);
    }
    FirstFour(TypeWord(filter), found, v6s + v4s);
  }

  /** The first four of a full ranking are a good choice. */
  lemma FirstFour(kind: string, found: seq<IpAddr>, all: seq<IpAddr>)
    requires Ranked(found, all)
    requires forall ip :: ip in all <==> ip in found && Wanted(kind, ip)
    ensures GoodChoice(kind, found, if |all| <= 4 then all else all[..4])
  {
    var chosen := if |all| <= 4 then all else all[..4];
    forall ip | ip in found && Wanted(kind, ip) && ip !in chosen ensures AllBetter(found, chosen, ip) {
      assert ip in all;
      var k :| 0 <= k < |all| && all[k] == ip;
      assert forall i | 0 <= i < |chosen| :: chosen[i] in chosen && chosen[i] == all[i];
    }
  }

  lemma {:induction false} PlaceAppend(ips: seq<IpAddr>, last: IpAddr, ip: IpAddr)
    ensures Place(ips + [last], ip) == Place(ips, ip) + if ip in ips || ip == last then 0 else 1
  {
    if ips != [] {
      assert (ips + [last])[1..] == ips[1..] + [last];
      PlaceAppend(ips[1..], last, ip);
    }
  }

  /** De-duplication does not change which of two addresses comes first. */
  lemma {:induction false} DistinctKeepsOrder(found: seq<IpAddr>, x: IpAddr, y: IpAddr)
    requires x in found && y in found
    ensures Place(Distinct(found), x) < Place(Distinct(found), y) <==> Place(found, x) < Place(found, y)
  {
    var before, last := found[..|found| - 1], found[|found| - 1];
    assert found == before + [last];
    DistinctIsSet(before);
    PlaceAppend(before, last, x);
    PlaceAppend(before, last, y);
    PlaceAppend(Distinct(before), last, x);
    PlaceAppend(Distinct(before), last, y);
    if x in before && y in before {
      DistinctKeepsOrder(before, x, y);
    }
  }

  /** What a client decodes from the answer to its query is the good choice
      among the addresses found, however often each was found, and nothing if
      the lookup has failed. */
  lemma AnswerIsCorrect(raw: Bytes, host: string, kind: string, found: Option<seq<IpAddr>>)
    requires IsQuery(raw, host, kind)
    ensures var got := DecodeReply(Answer(raw, found));
      got.Some? && GoodChoice(kind, if found.Some? then found.value else [], got.value)
  {
    var filter := QueryFilter(raw, host, kind);
    var addrs := if found.Some? then found.value else [];
    ReplyDecodes(filter, Distinct(addrs));
    DistinctIsSet(addrs);
    SelectedIsGood(filter, Distinct(addrs));
    SameChoice(kind, addrs, Selected(filter, Distinct(addrs)));
  }

  /** Anything else is answered with an empty list. */
  lemma BadQueryGetsNothing(raw: Bytes, found: Option<seq<IpAddr>>)
    requires forall host, kind :: !IsQuery(raw, host, kind)
    ensures DecodeReply(Answer(raw, found)) == Some([])
  {
    if ParseQuery(raw).Some? {
      var (host, filter) := ParseQuery(raw).value;
      QueryReads(raw, host, filter);
    }
    ReplyDecodes(Any, []);
  }

  lemma SameChoice(kind: string, found: seq<IpAddr>, chosen: seq<IpAddr>)
    requires GoodChoice(kind, Distinct(found), chosen)
    ensures GoodChoice(kind, found, chosen)
  {
    DistinctIsSet(found);
    forall x, y | x in found && y in found
      ensures Prefers(Distinct(found), x, y) <==> Prefers(found, x, y)
    {
      DistinctKeepsOrder(found, x, y);
    }
    assert forall i | 0 <= i < |chosen| :: chosen[i] in chosen;
    forall ip | ip in found && Wanted(kind, ip) && ip !in chosen ensures AllBetter(found, chosen, ip) {
      assert AllBetter(Distinct(found), chosen, ip);
    }
  }
}
