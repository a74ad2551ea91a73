/** The command language of a session (src/service/commands.rs). A command is
    a line of ASCII text; `PlanCommand` is what it asks for, and `Conclude` is
    what the service's answer turns into. */
module Commands {
  import opened Wrappers
  import opened BigEndian
  import opened Code
  import Text

  const MAX_COMMAND_SIZE: nat := 4096
  const COMMAND_LIMIT: nat := 255

  type LeaseId = nat

  /** The sending half of a session's relay. */
  type Relay = nat

  /** How the standard library reads and prints IP addresses. */
  datatype IpText = IpText(parse: string -> Option<IpAddr>, show: Ipv6 -> string)

  datatype Call =
    | Route(addr: SocketAddr, relay: Relay)
    | NewAddress
    | Claim(passcode: Passcode, port: u16, relay: Relay)

  datatype Plan = Fail | Respond(response: string) | Ask(call: Call)

  datatype Answer = Assigned(address: Ipv6, passcode: Passcode) | Granted(lease: LeaseId) | Refused

  datatype CommandResult = CommandResult(response: string, newLease: Option<LeaseId>, relayUdp: bool)

  function AtMost<T>(n: nat, s: seq<T>): seq<T> {
    if |s| <= n then s else s[..n]
  }

  function PlanCommand(ip: IpText, raw: Bytes, relay: Option<Relay>): Plan {
    if !Text.IsAscii(raw) || |raw| > COMMAND_LIMIT then Fail
    else
      var line := Text.Decode(raw);
      if "PING" <= line then Respond("PONG" + line[4..])
      else
        var words := AtMost(6, Text.Words(line, Text.IsSpace));
        if words == [] then Fail
        else if words[0] == "PROXY" then PlanProxy(ip, words, relay)
        else if words[0] == "NEWADDR" then if |words| == 1 then Ask(NewAddress) else Fail
        else if words[0] == "BIND" then PlanBind(words, relay)
        else Fail
  }

  /** PROXY family TCP address port */
  function PlanProxy(ip: IpText, words: seq<string>, relay: Option<Relay>): Plan {
    if |words| != 5 || (words[1] != "IPV4" && words[1] != "IPV6") || words[2] != "TCP" then Fail
    else
      match (ip.parse(words[3]), Text.ParseU16(words[4]), relay)
      case (Some(addr), Some(port), Some(tx)) =>
        if addr.V6? == (words[1] == "IPV6") then Ask(Route(SocketAddr(addr, port), tx)) else Fail
      case _ => Fail
  }

  /** BIND passcode UDP port */
  function PlanBind(words: seq<string>, relay: Option<Relay>): Plan {
    if |words| != 4 || words[2] != "UDP" then Fail
    else
      match (ParsePasscode(words[1]), Text.ParseU16(words[3]), relay)
      case (Some(passcode), Some(port), Some(tx)) => Ask(Claim(passcode, port, tx))
      case _ => Fail
  }

  function AddrResponse(ip: IpText, address: Ipv6, passcode: Passcode): string {
    "ADDR " + ip.show(address) + " " + ShowPasscode(passcode)
  }

  /** The reply to a command once the service has answered; none if the
      command fails. */
  function Conclude(ip: IpText, call: Call, answer: Answer): Option<CommandResult> {
    match (call, answer)
    case (NewAddress, Assigned(address, passcode)) =>
      Some(CommandResult(AddrResponse(ip, address, passcode), None, false))
    case (Route(_, _), Granted(lease)) => Some(CommandResult("PROXY OK", Some(lease), false))
    case (Claim(_, _, _), Granted(lease)) => Some(CommandResult("BIND OK", Some(lease), true))
    case (Claim(_, _, _), Refused) => Some(CommandResult("BIND FAILED", None, false))
    case _ => None
  }

  /** What is left of the session's own relay sender: PROXY takes it whatever
      happens, BIND only once the port is bound. */
  function RelayAfter(call: Call, answer: Answer, relay: Option<Relay>): Option<Relay> {
    if call.Route? || (call.Claim? && answer.Granted?) then None else relay
  }

  function Grant(lease: Option<LeaseId>): Answer {
    match lease case Some(l) => Granted(l) case None => Refused
  }

  /** The proxy's service as a function of its state, with everything that
      other sessions and the outside world decide folded into that state. */
  datatype Service<!S> = Service(
    assign: S -> (S, Ipv6, Passcode),
    bind: (S, Passcode, u16, Relay) -> (S, Option<LeaseId>),
    route: (S, SocketAddr, Relay) -> (S, Option<LeaseId>))
  {
    function Reply(s: S, call: Call): (S, Answer) {
      match call
      case NewAddress => var (s', a, p) := assign(s); (s', Assigned(a, p))
      case Claim(p, port, relay) => var (s', l) := bind(s, p, port, relay); (s', Grant(l))
      case Route(addr, relay) => var (s', l) := route(s, addr, relay); (s', Grant(l))
    }
  }

  datatype Executed<S> = Executed(state: S, relay: Option<Relay>, result: Option<CommandResult>)

  /** One command from start to end. */
  function Execute<S>(ip: IpText, service: Service<S>, s: S, raw: Bytes, relay: Option<Relay>): Executed<S> {
    Perform(ip, service, s, PlanCommand(ip, raw, relay), relay)
  }

  function Perform<S>(ip: IpText, service: Service<S>, s: S, plan: Plan, relay: Option<Relay>): Executed<S> {
    match plan
    case Fail => Executed(s, relay, None)
    case Respond(response) => Executed(s, relay, Some(CommandResult(response, None, false)))
    case Ask(call) =>
      var (s', answer) := service.Reply(s, call);
      Executed(s', RelayAfter(call, answer, relay), Conclude(ip, call, answer))
  }

  class CommandProcessor<S> {
    const ip: IpText
    const service: Service<S>
    var state: S

    constructor (ip: IpText, service: Service<S>, state: S)
      ensures this.ip == ip && this.service == service && this.state == state
    {
      this.ip, this.service, this.state := ip, service, state;
    }

    /** Branch by branch as the service code runs it; `relayTx'` is the
        caller's relay option afterwards. */
    method HandleCommand(raw: Bytes, relayTx: Option<Relay>)
      returns (result: Option<CommandResult>, relayTx': Option<Relay>)
      modifies this`state
      ensures Executed(state, relayTx', result) == Execute(ip, service, old(state), raw, relayTx)
    {
      relayTx' := relayTx;
      if !Text.IsAscii(raw) {
        return None, relayTx';
      }
      var line := Text.Decode(raw);
      if |line| > COMMAND_LIMIT {
        return None, relayTx';
      }
      if "PING" <= line {
        return Some(CommandResult("PONG" + line[4..], None, false)), relayTx';
      }
      var tokens := AtMost(6, Text.Words(line, Text.IsSpace));
      if |tokens| < 1 {
        return None, relayTx';
      }
      var response: string;
      var newLease: Option<LeaseId>, relayUdp := None, false;
      if tokens[0] == "PROXY" {
        if |tokens| != 5 {
          return None, relayTx';
        }
        var wantIpv6: bool;
        if tokens[1] == "IPV4" {
          wantIpv6 := false;
        } else if tokens[1] == "IPV6" {
          wantIpv6 := true;
        } else {
          return None, relayTx';
        }
        if tokens[2] != "TCP" {
          return None, relayTx';
        }
        var addr := ip.parse(tokens[3]);
        if addr == None || addr.value.V6? != wantIpv6 {
          return None, relayTx';
        }
        var port := Text.ParseU16(tokens[4]);
        if port == None || relayTx == None {
          return None, relayTx';
        }
        relayTx' := None;
        var (s, lease) := service.route(state, SocketAddr(addr.value, port.value), relayTx.value);
        state := s;
        if lease == None {
          return None, relayTx';
        }
        newLease := lease;
        response := "PROXY OK";
      } else if tokens[0] == "NEWADDR" {
        if |tokens| != 1 {
          return None, relayTx';
        }
        var (s, address, passcode) := service.assign(state);
        state := s;
        response := "ADDR " + ip.show(address) + " " + ShowPasscode(passcode);
      } else if tokens[0] == "BIND" {
        if relayTx == None || |tokens| != 4 {
          return None, relayTx';
        }
        var passcode := ParsePasscode(tokens[1]);
        if passcode == None || tokens[2] != "UDP" {
          return None, relayTx';
        }
        var port := Text.ParseU16(tokens[3]);
        if port == None {
          return None, relayTx';
        }
        var (s, lease) := service.bind(state, passcode.value, port.value, relayTx.value);
        state := s;
        if lease.Some? {
          relayTx' := None;
          newLease := lease;
          relayUdp := true;
          response := "BIND OK";
        } else {
          response := "BIND FAILED";
        }
      } else {
        return None, relayTx';
      }
      return Some(CommandResult(response, newLease, relayUdp)), relayTx';
    }
  }

  /** A command that goes through takes the relay exactly when it makes a
      lease, marks the session datagram-only only if there is a lease, and
      never makes one without a relay to give it. In particular a refused
      BIND answers and leaves the relay for another try. */
  lemma RelayExchangedForLease<S>(ip: IpText, service: Service<S>, s: S, raw: Bytes, relay: Option<Relay>)
    ensures var e := Execute(ip, service, s, raw, relay);
      e.result.Some? ==>
        && (e.result.value.newLease.Some? ==> relay.Some? && e.relay == None)
        && (e.result.value.newLease.None? ==> e.relay == relay)
        && (e.result.value.relayUdp ==> e.result.value.newLease.Some?)
  {
  }

  /** An overlong line fails before it reaches the service. */
  lemma OverlongFails<S>(ip: IpText, service: Service<S>, s: S, raw: Bytes, relay: Option<Relay>)
    requires |raw| > COMMAND_LIMIT
    ensures Execute(ip, service, s, raw, relay) == Executed(s, relay, None)
  {
  }

  // ----- what a line asks for -----

  /** A command line made of these words, with any white space around them. */
  ghost predicate IsLine(raw: Bytes, words: seq<string>) {
    |raw| <= 255 && exists line :: Text.Spells(raw, line) && Text.HasWords(line, words, Text.WHITE_SPACE)
  }

  /** PING and whatever is behind it. */
  ghost predicate IsPing(raw: Bytes, rest: string) {
    |raw| <= 255 && Text.Spells(raw, "PING" + rest)
  }

  lemma LineIsWords(raw: Bytes, words: seq<string>)
    ensures IsLine(raw, words)
       <==> Text.IsAscii(raw) && |raw| <= 255 && Text.Words(Text.Decode(raw), Text.IsSpace) == words
  {
    Text.DecodeReads(raw, Text.Decode(raw));
    Text.WordsAre(Text.Decode(raw), words);
    forall line | Text.Spells(raw, line) ensures line == Text.Decode(raw) {
      Text.DecodeReads(raw, line);
    }
  }

  lemma PingIsPrefix(raw: Bytes, rest: string)
    ensures IsPing(raw, rest)
       <==> Text.IsAscii(raw) && |raw| <= 255 && "PING" <= Text.Decode(raw) && Text.Decode(raw)[4..] == rest
  {
    Text.DecodeReads(raw, "PING" + rest);
    assert ("PING" + rest)[4..] == rest;
    if |raw| >= 4 && "PING" <= Text.Decode(raw) {
      assert Text.Decode(raw) == "PING" + Text.Decode(raw)[4..];
    }
  }

  /** The words decide what a command asks for, unless it begins with PING. */
  lemma LineReads(ip: IpText, raw: Bytes, words: seq<string>, relay: Option<Relay>)
    requires IsLine(raw, words) && words != [] && !("PING" <= words[0])
    ensures PlanCommand(ip, raw, relay)
      == if words[0] == "PROXY" then PlanProxy(ip, AtMost(6, words), relay)
         else if words[0] == "NEWADDR" then if |words| == 1 then Ask(NewAddress) else Fail
         else if words[0] == "BIND" then PlanBind(AtMost(6, words), relay)
         else Fail
  {
    LineIsWords(raw, words);
    var line := Text.Decode(raw);
    if "PING" <= line {
      Text.FirstWord("PING", line, Text.IsSpace);
    }
  }

  /** A command is answered without asking the service exactly if it begins
      with PING, and the answer is PONG and the rest of it. */
  lemma PingReads(ip: IpText, raw: Bytes, relay: Option<Relay>, response: string)
    ensures PlanCommand(ip, raw, relay) == Respond(response)
       <==> exists rest :: IsPing(raw, rest) && response == "PONG" + rest
  {
    forall rest | IsPing(raw, rest) ensures PlanCommand(ip, raw, relay) == Respond("PONG" + rest) {
      PingIsPrefix(raw, rest);
    }
    if PlanCommand(ip, raw, relay) == Respond(response) {
      PingIsPrefix(raw, Text.Decode(raw)[4..]);
    }
  }

  /** A command asks for an address exactly if its only word is NEWADDR. */
  lemma NewAddressLineReads(ip: IpText, raw: Bytes, relay: Option<Relay>)
    ensures PlanCommand(ip, raw, relay) == Ask(NewAddress) <==> IsLine(raw, ["NEWADDR"])
  {
    LineIsWords(raw, ["NEWADDR"]);
    if IsLine(raw, ["NEWADDR"]) {
      assert "NEWADDR"[0] == 'N';
      LineReads(ip, raw, ["NEWADDR"], relay);
    }
    if PlanCommand(ip, raw, relay) == Ask(NewAddress) {
      var words := Text.Words(Text.Decode(raw), Text.IsSpace);
      assert words == ["NEWADDR"];
    }
  }

  /** A command line BIND passcode UDP port, for a port written in some way
      that parses. */
  ghost predicate IsBindLine(raw: Bytes, passcode: Passcode, portText: string, port: u16) {
    IsLine(raw, ["BIND", passcode, "UDP", portText]) && Text.WritesPort(portText, port)
  }

  lemma BindWords(words: seq<string>, passcode: Passcode, port: u16, tx: Relay)
    ensures PlanBind(words, Some(tx)) == Ask(Claim(passcode, port, tx))
       <==> |words| == 4 && words[1] == passcode && words[2] == "UDP" && Text.WritesPort(words[3], port)
  {
    if |words| == 4 {
      PasscodeRoundTrip(passcode, words[1]);
      Text.ParseU16Reads(words[3], port);
    }
  }

  lemma BindLinePlans(ip: IpText, raw: Bytes, passcode: Passcode, portText: string, port: u16, tx: Relay)
    requires IsBindLine(raw, passcode, portText, port)
    ensures PlanCommand(ip, raw, Some(tx)) == Ask(Claim(passcode, port, tx))
  {
    var words := ["BIND", passcode, "UDP", portText];
    assert "BIND"[0] == 'B';
    BindWords(words, passcode, port, tx);
    LineReads(ip, raw, words, Some(tx));
  }

  lemma BindWordsAreLine(raw: Bytes, words: seq<string>, passcode: Passcode, port: u16, tx: Relay)
    requires IsLine(raw, words) && |words| >= 4 && words[0] == "BIND"
    requires PlanBind(words, Some(tx)) == Ask(Claim(passcode, port, tx))
    ensures |words| == 4 && IsBindLine(raw, passcode, words[3], port)
  {
    BindWords(words, passcode, port, tx);
    assert words == ["BIND", passcode, "UDP", words[3]];
  }

  /** A command claims that passcode and port, on the session's own relay,
      exactly if it is such a line. */
  lemma BindLineReads(ip: IpText, raw: Bytes, passcode: Passcode, port: u16, tx: Relay)
    ensures PlanCommand(ip, raw, Some(tx)) == Ask(Claim(passcode, port, tx))
       <==> exists portText :: IsBindLine(raw, passcode, portText, port)
  {
    forall portText | IsBindLine(raw, passcode, portText, port)
      ensures PlanCommand(ip, raw, Some(tx)) == Ask(Claim(passcode, port, tx))
    {
      BindLinePlans(ip, raw, passcode, portText, port, tx);
    }
    if PlanCommand(ip, raw, Some(tx)) == Ask(Claim(passcode, port, tx)) {
      var words := PlanIsLine(ip, raw, Some(tx));
      BindWordsAreLine(raw, words, passcode, port, tx);
    }
  }

  /** A command that claims a port or asks for a link has these words. */
  lemma PlanIsLine(ip: IpText, raw: Bytes, relay: Option<Relay>) returns (words: seq<string>)
    requires PlanCommand(ip, raw, relay).Ask? && !PlanCommand(ip, raw, relay).call.NewAddress?
    ensures IsLine(raw, words) && 4 <= |words| <= 5
    ensures if PlanCommand(ip, raw, relay).call.Route? then words[0] == "PROXY" else words[0] == "BIND"
    ensures PlanCommand(ip, raw, relay)
      == if words[0] == "PROXY" then PlanProxy(ip, words, relay) else PlanBind(words, relay)
  {
    words := Text.Words(Text.Decode(raw), Text.IsSpace);
    LineIsWords(raw, words);
  }

  /** A command line PROXY family TCP address port, for an address and a port
      written in some way that parses. */
  ghost predicate IsProxyLine(ip: IpText, raw: Bytes, addrText: string, portText: string, addr: SocketAddr) {
    && IsLine(raw, ["PROXY", if addr.ip.V6? then "IPV6" else "IPV4", "TCP", addrText, portText])
    && ip.parse(addrText) == Some(addr.ip) && Text.WritesPort(portText, addr.port)
  }

  lemma ProxyWords(ip: IpText, words: seq<string>, addr: SocketAddr, tx: Relay)
    ensures PlanProxy(ip, words, Some(tx)) == Ask(Route(addr, tx))
       <==> |words| == 5 && words[1] == (if addr.ip.V6? then "IPV6" else "IPV4") && words[2] == "TCP"
            && ip.parse(words[3]) == Some(addr.ip) && Text.WritesPort(words[4], addr.port)
  {
    if |words| == 5 {
      Text.ParseU16Reads(words[4], addr.port);
    }
  }

  lemma ProxyLinePlans(ip: IpText, raw: Bytes, addrText: string, portText: string, addr: SocketAddr, tx: Relay)
    requires IsProxyLine(ip, raw, addrText, portText, addr)
    ensures PlanCommand(ip, raw, Some(tx)) == Ask(Route(addr, tx))
  {
    var words := ["PROXY", if addr.ip.V6? then "IPV6" else "IPV4", "TCP", addrText, portText];
    assert "PROXY"[1] == 'R';
    ProxyWords(ip, words, addr, tx);
    LineReads(ip, raw, words, Some(tx));
  }

  lemma ProxyWordsAreLine(ip: IpText, raw: Bytes, words: seq<string>, addr: SocketAddr, tx: Relay)
    requires IsLine(raw, words) && |words| >= 4 && words[0] == "PROXY"
    requires PlanProxy(ip, words, Some(tx)) == Ask(Route(addr, tx))
    ensures |words| == 5 && IsProxyLine(ip, raw, words[3], words[4], addr)
  {
    ProxyWords(ip, words, addr, tx);
    assert words == ["PROXY", if addr.ip.V6? then "IPV6" else "IPV4", "TCP", words[3], words[4]];
  }

  /** A command asks for a link to that address, on the session's own relay,
      exactly if it is such a line. */
  lemma ProxyLineReads(ip: IpText, raw: Bytes, addr: SocketAddr, tx: Relay)
    ensures PlanCommand(ip, raw, Some(tx)) == Ask(Route(addr, tx))
       <==> exists addrText, portText :: IsProxyLine(ip, raw, addrText, portText, addr)
  {
    forall addrText, portText | IsProxyLine(ip, raw, addrText, portText, addr)
      ensures PlanCommand(ip, raw, Some(tx)) == Ask(Route(addr, tx))
    {
      ProxyLinePlans(ip, raw, addrText, portText, addr, tx);
    }
    if PlanCommand(ip, raw, Some(tx)) == Ask(Route(addr, tx)) {
      var words := PlanIsLine(ip, raw, Some(tx));
      ProxyWordsAreLine(ip, raw, words, addr, tx);
    }
  }

  /** One of the lines that the command language knows, which need a relay if
      they are to make a lease. */
  ghost predicate IsKnownLine(ip: IpText, raw: Bytes, relay: Option<Relay>) {
    || (exists rest :: IsPing(raw, rest))
    || IsLine(raw, ["NEWADDR"])
    || (relay.Some? && exists passcode, portText, port :: IsBindLine(raw, passcode, portText, port))
    || (relay.Some? && exists addrText, portText, addr :: IsProxyLine(ip, raw, addrText, portText, addr))
  }

  /** Every other line fails, and only those. */
  lemma OtherLinesFail(ip: IpText, raw: Bytes, relay: Option<Relay>)
    ensures PlanCommand(ip, raw, relay) == Fail <==> !IsKnownLine(ip, raw, relay)
  {
    NewAddressLineReads(ip, raw, relay);
    forall rest | IsPing(raw, rest) ensures PlanCommand(ip, raw, relay) != Fail {
      PingReads(ip, raw, relay, "PONG" + rest);
    }
    forall passcode, portText, port | relay.Some? && IsBindLine(raw, passcode, portText, port)
      ensures PlanCommand(ip, raw, relay) != Fail
    {
      BindLineReads(ip, raw, passcode, port, relay.value);
    }
    forall addrText, portText, addr | relay.Some? && IsProxyLine(ip, raw, addrText, portText, addr)
      ensures PlanCommand(ip, raw, relay) != Fail
    {
      ProxyLineReads(ip, raw, addr, relay.value);
    }
    match PlanCommand(ip, raw, relay)
    case Fail =>
    case Respond(response) => PingReads(ip, raw, relay, response);
    case Ask(NewAddress) =>
    case Ask(Claim(passcode, port, tx)) => BindLineReads(ip, raw, passcode, port, tx);
    case Ask(Route(addr, tx)) => ProxyLineReads(ip, raw, addr, tx);
  }

  // ----- what a line does -----

  lemma PingAnswered<S>(ip: IpText, service: Service<S>, s: S, raw: Bytes, relay: Option<Relay>, rest: string)
    requires IsPing(raw, rest)
    ensures Execute(ip, service, s, raw, relay)
         == Executed(s, relay, Some(CommandResult("PONG" + rest, None, false)))
  {
    PingReads(ip, raw, relay, "PONG" + rest);
  }

  /** NEWADDR is answered with the address and the passcode that the service
      hands out. */
  lemma NewAddressAnswered<S>(ip: IpText, service: Service<S>, s: S, raw: Bytes, relay: Option<Relay>)
    requires IsLine(raw, ["NEWADDR"])
    ensures var (s', address, passcode) := service.assign(s);
      Execute(ip, service, s, raw, relay)
      == Executed(s', relay,
           Some(CommandResult("ADDR " + ip.show(address) + " " + passcode, None, false)))
  {
    NewAddressLineReads(ip, raw, relay);
  }

  /** What a BIND comes to once the service has answered, and a PROXY. */
  function AfterBind<S>(s: S, lease: Option<LeaseId>, tx: Relay): Executed<S> {
    if lease.Some? then Executed(s, None, Some(CommandResult("BIND OK", lease, true)))
    else Executed(s, Some(tx), Some(CommandResult("BIND FAILED", None, false)))
  }

  function AfterProxy<S>(s: S, lease: Option<LeaseId>): Executed<S> {
    Executed(s, None, if lease.Some? then Some(CommandResult("PROXY OK", lease, false)) else None)
  }

  lemma CallPerforms<S>(ip: IpText, service: Service<S>, s: S, tx: Relay)
    ensures forall passcode, port ::
      var answer := service.bind(s, passcode, port, tx);
      Perform(ip, service, s, Ask(Claim(passcode, port, tx)), Some(tx)) == AfterBind(answer.0, answer.1, tx)
    ensures forall addr ::
      var answer := service.route(s, addr, tx);
      Perform(ip, service, s, Ask(Route(addr, tx)), Some(tx)) == AfterProxy(answer.0, answer.1)
  {
  }

  /** BIND asks for the port, and takes the relay exactly if it gets it. */
  lemma BindAnswered<S>(
    ip: IpText, service: Service<S>, s: S, raw: Bytes, tx: Relay, passcode: Passcode, portText: string, port: u16)
    requires IsBindLine(raw, passcode, portText, port)
    ensures var answer := service.bind(s, passcode, port, tx);
      Execute(ip, service, s, raw, Some(tx)) == AfterBind(answer.0, answer.1, tx)
  {
    BindLinePlans(ip, raw, passcode, portText, port, tx);
    CallPerforms(ip, service, s, tx);
  }

  /** PROXY gives the relay away, and fails if there is no such service. */
  lemma ProxyAnswered<S>(
    ip: IpText, service: Service<S>, s: S, raw: Bytes, tx: Relay, addrText: string, portText: string, addr: SocketAddr)
    requires IsProxyLine(ip, raw, addrText, portText, addr)
    ensures var answer := service.route(s, addr, tx);
      Execute(ip, service, s, raw, Some(tx)) == AfterProxy(answer.0, answer.1)
  {
    ProxyLinePlans(ip, raw, addrText, portText, addr, tx);
    CallPerforms(ip, service, s, tx);
  }

  /** Any other line fails before it reaches the service. */
  lemma OthersRefused<S>(ip: IpText, service: Service<S>, s: S, raw: Bytes, relay: Option<Relay>)
    requires !IsKnownLine(ip, raw, relay)
    ensures Execute(ip, service, s, raw, relay) == Executed(s, relay, None)
  {
    OtherLinesFail(ip, raw, relay);
  }

  /** What a client reads out of a NEWADDR reply, its third word, is the
      passcode, provided addresses print without white space. */
  lemma NewAddressReplyReads(ip: IpText, address: Ipv6, passcode: Passcode)
    requires ip.show(address) != [] && Text.Without(ip.show(address), Text.WHITE_SPACE)
    ensures Text.HasWords(AddrResponse(ip, address, passcode),
      ["ADDR", ip.show(address), passcode], Text.WHITE_SPACE)
  {
    PasscodeRoundTrip(passcode, []);
    Text.ThreeWords("ADDR", ip.show(address), passcode, Text.WHITE_SPACE);
    assert AddrResponse(ip, address, passcode) == "ADDR" + (" " + ip.show(address) + (" " + passcode));
  }
}
