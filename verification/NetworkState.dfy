/** The tables of the private network as values, and what one locked section
    does to them (src/service/net/network.rs). `R` is whatever stands for the
    sender of a client's relay. */
module NetworkState {
  import opened Wrappers
  import opened BigEndian
  import opened Sequences
  import opened Code

  /** 24 hours, in the nanoseconds that instants are counted in. */
  const ASSIGNMENT_TTL: nat := 24 * 60 * 60 * 1_000_000_000

  datatype RouteKey = RouteKey(address: Ipv6, port: u16)

  datatype Assignment = Assignment(passcode: Passcode, binds: nat, touched: nat)

  datatype NetState<R> = NetState(
    byAddress: map<Ipv6, Assignment>,
    byPasscode: map<Passcode, Ipv6>,
    routes: map<RouteKey, R>)

  datatype BindError = PortZero | UnknownPasscode | AlreadyBound | AssignmentMissing

  /** Time since an instant, zero if the instant is not in the past. */
  function Elapsed(now: nat, since: nat): nat {
    if now < since then 0 else now - since
  }

  predicate IsStale(a: Assignment, now: nat) {
    a.binds == 0 && Elapsed(now, a.touched) >= ASSIGNMENT_TTL
  }

  function Stale<R>(s: NetState<R>, now: nat): set<Ipv6> {
    set a | a in s.byAddress && IsStale(s.byAddress[a], now)
  }

  /** The tables after `expire`. */
  function Expired<R>(s: NetState<R>, now: nat): NetState<R> {
    var stale := Stale(s, now);
    s.(byAddress := s.byAddress - stale,
       byPasscode := s.byPasscode - set a | a in stale :: s.byAddress[a].passcode)
  }

  predicate IsFree<R>(s: NetState<R>, address: Ipv6, passcode: Passcode) {
    address !in s.byAddress && passcode !in s.byPasscode
  }

  /** The tables after a free pair has been handed out. */
  function Issued<R>(s: NetState<R>, address: Ipv6, passcode: Passcode, now: nat): NetState<R> {
    s.(byAddress := s.byAddress[address := Assignment(passcode, 0, now)],
       byPasscode := s.byPasscode[passcode := address])
  }

  /** The locked section of `bind`. */
  function Bind<R>(s: NetState<R>, passcode: Passcode, port: u16, relay: R, now: nat)
    : Result<(NetState<R>, RouteKey), BindError>
  {
    if port == 0 then Err(PortZero)
    else if passcode !in s.byPasscode then Err(UnknownPasscode)
    else
      var address := s.byPasscode[passcode];
      var key := RouteKey(address, port);
      if key in s.routes then Err(AlreadyBound)
      else if address !in s.byAddress then Err(AssignmentMissing)
      else
        var a := s.byAddress[address];
        Ok((s.(byAddress := s.byAddress[address := a.(binds := a.binds + 1, touched := now)],
               routes := s.routes[key := relay]), key))
  }

  /** The locked section of `unbind`. */
  function Unbind<R>(s: NetState<R>, key: RouteKey, now: nat): NetState<R> {
    if key !in s.routes then s
    else
      var routes := s.routes - {key};
      if key.address !in s.byAddress then s.(routes := routes)
      else
        var a := s.byAddress[key.address];
        var binds := if a.binds == 0 then 0 else a.binds - 1;
        s.(byAddress := s.byAddress[key.address := a.(binds := binds, touched := now)], routes := routes)
  }

  function RoutesOn<R>(s: NetState<R>, address: Ipv6): set<RouteKey> {
    set k | k in s.routes && k.address == address
  }

  /** The first free one of the drawn pairs, from number `n` on. */
  function FirstFree<R>(s: NetState<R>, addresses: seq<Ipv6>, passcodes: seq<Passcode>, n: nat): Option<nat>
    decreases |addresses| - n
  {
    if n >= |addresses| || n >= |passcodes| then None
    else if IsFree(s, addresses[n], passcodes[n]) then Some(n)
    else FirstFree(s, addresses, passcodes, n + 1)
  }

  lemma {:induction false} FirstFreeIsFirst<R>(
    s: NetState<R>, addresses: seq<Ipv6>, passcodes: seq<Passcode>, n: nat)
    ensures match FirstFree(s, addresses, passcodes, n)
      case Some(i) =>
        && n <= i < |addresses| && i < |passcodes| && IsFree(s, addresses[i], passcodes[i])
        && forall j | n <= j < i :: !IsFree(s, addresses[j], passcodes[j])
      case None =>
        forall j | n <= j < |addresses| && j < |passcodes| :: !IsFree(s, addresses[j], passcodes[j])
    decreases |addresses| - n
  {
    if n < |addresses| && n < |passcodes| && !IsFree(s, addresses[n], passcodes[n]) {
      FirstFreeIsFirst(s, addresses, passcodes, n + 1);
    }
  }

  // ----- the invariant of the tables -----

  /** Addresses and passcodes name each other. */
  ghost predicate MutuallyInverse<R>(s: NetState<R>) {
    && (forall a | a in s.byAddress ::
          s.byAddress[a].passcode in s.byPasscode && s.byPasscode[s.byAddress[a].passcode] == a)
    && (forall p | p in s.byPasscode ::
          s.byPasscode[p] in s.byAddress && s.byAddress[s.byPasscode[p]].passcode == p)
  }

  /** Every assignment counts its own routes, and no route lacks an assignment. */
  ghost predicate RoutesCounted<R>(s: NetState<R>) {
    && (forall k | k in s.routes :: k.address in s.byAddress && k.port != 0)
    && (forall a | a in s.byAddress :: s.byAddress[a].binds == |RoutesOn(s, a)|)
  }

  ghost predicate AddressesIssued<R>(s: NetState<R>) {
    forall a | a in s.byAddress :: IsClientAddress(a)
  }

  ghost predicate Consistent<R>(s: NetState<R>) {
    MutuallyInverse(s) && RoutesCounted(s) && AddressesIssued(s)
  }

  lemma ExpiredConsistent<R>(s: NetState<R>, now: nat)
    requires Consistent(s)
    ensures Consistent(Expired(s, now))
  {
    var t := Expired(s, now);
    forall k | k in t.routes ensures k.address in t.byAddress {
      assert k in RoutesOn(s, k.address);
    }
    forall a | a in t.byAddress ensures t.byAddress[a].binds == |RoutesOn(t, a)| {
      assert RoutesOn(t, a) == RoutesOn(s, a);
    }
  }

  /** Expiry forgets exactly the assignments with nothing bound for a day,
      under both of their names. */
  lemma ExpiredForgetsExactlyStale<R>(s: NetState<R>, now: nat, passcode: Passcode, address: Ipv6)
    requires Consistent(s)
    ensures passcode in Expired(s, now).byPasscode && Expired(s, now).byPasscode[passcode] == address
       <==> passcode in s.byPasscode && s.byPasscode[passcode] == address
            && (RoutesOn(s, address) != {} || now < s.byAddress[address].touched + 86_400_000_000_000)
  {
  }

  /** It changes nothing else: what stays is as it was, and every route stays. */
  lemma ExpiredKeepsTheRest<R>(s: NetState<R>, now: nat)
    requires Consistent(s)
    ensures var t := Expired(s, now);
      && t.routes == s.routes
      && (forall a | a in t.byAddress :: a in s.byAddress && t.byAddress[a] == s.byAddress[a])
      && (forall p | p in t.byPasscode :: p in s.byPasscode && t.byPasscode[p] == s.byPasscode[p])
  {
  }

  lemma IssuedConsistent<R>(s: NetState<R>, address: Ipv6, passcode: Passcode, now: nat)
    requires Consistent(s) && IsFree(s, address, passcode) && IsClientAddress(address)
    ensures Consistent(Issued(s, address, passcode, now))
  {
    var t := Issued(s, address, passcode, now);
    forall a | a in t.byAddress ensures t.byAddress[a].binds == |RoutesOn(t, a)| {
      assert RoutesOn(t, a) == RoutesOn(s, a);
    }
  }

  /** Whatever `assign` returns is on the private network and not the proxy's
      own address, has nothing bound on it, and shares its passcode with no
      other address. */
  lemma IssuedIsFresh<R>(s: NetState<R>, address: Ipv6, passcode: Passcode, now: nat)
    requires Consistent(s) && IsFree(s, address, passcode) && IsClientAddress(address)
    ensures IsNetworkAddress(address) && address != PROXY_ADDRESS
    ensures var t := Issued(s, address, passcode, now);
      && t.byAddress == s.byAddress[address := Assignment(passcode, 0, now)]
      && t.byPasscode == s.byPasscode[passcode := address] && t.routes == s.routes
      && RoutesOn(t, address) == {}
      && forall a | a in t.byAddress && a != address :: t.byAddress[a].passcode != passcode
  {
    ClientAddressRange(address);
  }

  /** Counting and touching leave the names alone. */
  lemma SamePasscodes<R>(s: NetState<R>, t: NetState<R>)
    requires MutuallyInverse(s) && AddressesIssued(s)
    requires t.byPasscode == s.byPasscode && t.byAddress.Keys == s.byAddress.Keys
    requires forall a | a in s.byAddress :: t.byAddress[a].passcode == s.byAddress[a].passcode
    ensures MutuallyInverse(t) && AddressesIssued(t)
  {
  }

  /** One more route counts once, on its own address. */
  lemma RouteAdded<R>(s: NetState<R>, t: NetState<R>, key: RouteKey, address: Ipv6)
    requires key !in s.routes && t.routes.Keys == s.routes.Keys + {key}
    ensures |RoutesOn(t, address)| == |RoutesOn(s, address)| + if address == key.address then 1 else 0
  {
    if address == key.address {
      assert RoutesOn(t, address) == RoutesOn(s, address) + {key};
    } else {
      assert RoutesOn(t, address) == RoutesOn(s, address);
    }
  }

  lemma BindCounts<R>(s: NetState<R>, t: NetState<R>, key: RouteKey)
    requires RoutesCounted(s) && key.port != 0
    requires key !in s.routes && t.routes.Keys == s.routes.Keys + {key}
    requires t.byAddress.Keys == s.byAddress.Keys && key.address in s.byAddress
    requires forall a | a in s.byAddress ::
      t.byAddress[a].binds == s.byAddress[a].binds + if a == key.address then 1 else 0
    ensures RoutesCounted(t)
  {
    forall a | a in t.byAddress ensures t.byAddress[a].binds == |RoutesOn(t, a)| {
      RouteAdded(s, t, key, a);
    }
  }

  /** In consistent tables a bind succeeds exactly when the port is a real one,
      the passcode is known and the port is not taken. In particular the
      missing-assignment error cannot happen. */
  lemma BindOutcome<R>(s: NetState<R>, passcode: Passcode, port: u16, relay: R, now: nat)
    requires Consistent(s)
    ensures var r := Bind(s, passcode, port, relay, now);
      && r != Err(AssignmentMissing)
      && (r == Err(PortZero) <==> port == 0)
      && (r == Err(UnknownPasscode) <==> port != 0 && passcode !in s.byPasscode)
      && (r.Ok? <==> port != 0 && passcode in s.byPasscode && RouteKey(s.byPasscode[passcode], port) !in s.routes)
      && (r.Ok? ==>
            var (t, key) := r.value;
            && key == RouteKey(s.byPasscode[passcode], port)
            && t.routes == s.routes[key := relay] && t.byPasscode == s.byPasscode
            && t.byAddress == s.byAddress[key.address := t.byAddress[key.address]]
            && t.byAddress[key.address] == Assignment(passcode, s.byAddress[key.address].binds + 1, now))
  {
  }

  lemma BindConsistent<R>(s: NetState<R>, passcode: Passcode, port: u16, relay: R, now: nat)
    requires Consistent(s) && Bind(s, passcode, port, relay, now).Ok?
    ensures Consistent(Bind(s, passcode, port, relay, now).value.0)
  {
    var (t, key) := Bind(s, passcode, port, relay, now).value;
    SamePasscodes(s, t);
    BindCounts(s, t, key);
  }

  /** Releasing a bound port never finds its count at zero. */
  lemma UnbindOutcome<R>(s: NetState<R>, key: RouteKey, now: nat)
    requires Consistent(s) && key in s.routes
    ensures s.byAddress[key.address].binds >= 1
    ensures var t := Unbind(s, key, now);
      && t.routes == s.routes - {key} && t.byPasscode == s.byPasscode
      && t.byAddress.Keys == s.byAddress.Keys
      && (forall a | a in s.byAddress && a != key.address :: t.byAddress[a] == s.byAddress[a])
      && t.byAddress[key.address]
         == Assignment(s.byAddress[key.address].passcode, s.byAddress[key.address].binds - 1, now)
  {
    assert key in RoutesOn(s, key.address);
  }

  /** It takes one from that count, and from no other. */
  lemma UnbindCounts<R>(s: NetState<R>, key: RouteKey, now: nat, address: Ipv6)
    requires Consistent(s) && key in s.routes && address in s.byAddress
    ensures var t := Unbind(s, key, now);
      && t.byAddress.Keys == s.byAddress.Keys
      && t.byAddress[address].binds == s.byAddress[address].binds - if address == key.address then 1 else 0
  {
    UnbindOutcome(s, key, now);
  }

  lemma UnbindConsistent<R>(s: NetState<R>, key: RouteKey, now: nat)
    requires Consistent(s) && key in s.routes
    ensures Consistent(Unbind(s, key, now))
  {
    var t := Unbind(s, key, now);
    UnbindOutcome(s, key, now);
    SamePasscodes(s, t);
    forall a | a in t.byAddress ensures t.byAddress[a].binds == |RoutesOn(t, a)| {
      RouteAdded(t, s, key, a);
    }
  }

  // ----- how often `assign` has to draw again -----

  /** An injection from one finite set into another bounds its size. */
  lemma {:induction false} InjectionBound<S, T>(xs: set<S>, f: S --> T, ys: set<T>)
    requires forall x | x in xs :: f.requires(x) && f(x) in ys
    requires forall x, x' | x in xs && x' in xs && f(x) == f(x') :: x == x'
    ensures |xs| <= |ys|
  {
    if xs != {} {
      var x :| x in xs;
      InjectionBound(xs - {x}, f, ys - {f(x)});
    }
  }

  lemma AsManyPasscodes<R>(s: NetState<R>)
    requires Consistent(s)
    ensures |s.byPasscode| == |s.byAddress|
  {
    InjectionBound(s.byPasscode.Keys, p requires p in s.byPasscode => s.byPasscode[p], s.byAddress.Keys);
    InjectionBound(s.byAddress.Keys, a requires a in s.byAddress => s.byAddress[a].passcode, s.byPasscode.Keys);
  }

  /** The table entries among the values drawn. */
  ghost function Hits<T>(drawn: seq<T>, entries: set<T>): set<T> {
    set x | x in drawn && x in entries
  }

  lemma HitsAfter<T>(drawn: seq<T>, x: T, entries: set<T>)
    requires NoRepeats(drawn + [x])
    ensures |Hits(drawn + [x], entries)| == |Hits(drawn, entries)| + if x in entries then 1 else 0
  {
    forall i | 0 <= i < |drawn| ensures drawn[i] != x {
      assert (drawn + [x])[i] != (drawn + [x])[|drawn|];
    }
    var before := Hits(drawn, entries);
    assert Hits(drawn + [x], entries) == if x in entries then before + {x} else before;
  }

  /** Each rejected pair hits a table entry that no earlier pair has hit. */
  lemma {:induction false} RejectionsHit<R>(s: NetState<R>, addresses: seq<Ipv6>, passcodes: seq<Passcode>)
    requires |addresses| == |passcodes| && NoRepeats(addresses) && NoRepeats(passcodes)
    requires forall i | 0 <= i < |addresses| :: !IsFree(s, addresses[i], passcodes[i])
    ensures |addresses| <= |Hits(addresses, s.byAddress.Keys)| + |Hits(passcodes, s.byPasscode.Keys)|
  {
    if addresses != [] {
      var n := |addresses| - 1;
      var as', ps' := addresses[..n], passcodes[..n];
      RejectionsHit(s, as', ps');
      assert as' + [addresses[n]] == addresses && ps' + [passcodes[n]] == passcodes;
      HitsAfter(as', addresses[n], s.byAddress.Keys);
      HitsAfter(ps', passcodes[n], s.byPasscode.Keys);
      assert !IsFree(s, addresses[n], passcodes[n]);
    }
  }

  /** When no address and no passcode is drawn twice, at most two draws for
      each table entry are rejected before one is accepted. */
  lemma RejectionsBounded<R>(s: NetState<R>, addresses: seq<Ipv6>, passcodes: seq<Passcode>)
    requires Consistent(s) && NoRepeats(addresses) && NoRepeats(passcodes)
    requires |addresses| > 2 * |s.byAddress| && |passcodes| > 2 * |s.byAddress|
    ensures FirstFree(s, addresses, passcodes, 0).Some?
    ensures FirstFree(s, addresses, passcodes, 0).value <= 2 * |s.byAddress|
  {
    FirstFreeIsFirst(s, addresses, passcodes, 0);
    var first := FirstFree(s, addresses, passcodes, 0);
    if first == None || first.value > 2 * |s.byAddress| {
      var n := 2 * |s.byAddress| + 1;
      RejectionsHit(s, addresses[..n], passcodes[..n]);
      SubsetSize(Hits(addresses[..n], s.byAddress.Keys), s.byAddress.Keys);
      SubsetSize(Hits(passcodes[..n], s.byPasscode.Keys), s.byPasscode.Keys);
      AsManyPasscodes(s);
    }
  }

  lemma {:induction false} SubsetSize<T>(xs: set<T>, ys: set<T>)
    requires xs <= ys
    ensures |xs| <= |ys|
  {
    if xs != {} {
      var x :| x in xs;
      SubsetSize(xs - {x}, ys - {x});
    }
  }
}
