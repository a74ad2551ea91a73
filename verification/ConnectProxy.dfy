/** The HTTP CONNECT service (src/service/connectproxy.rs; CONNECT is section
    9.3.6 of RFC 9110): a loop over chunks that finds the end of a request
    header, connects, and from then on passes bytes both ways. */
module ConnectProxy {
  import opened Wrappers
  import opened BigEndian
  import Text

  const CRLFCRLF: Bytes := [13, 10, 13, 10]

  const SUCCESS_TEXT: string :=
    "HTTP/1.0 200 Connection Established" + "\r\n" + "Proxy-agent: Apache/2.4.41 (Ubuntu)" + "\r\n" + "\r\n"

  const SUCCESS_REPLY: Bytes := Text.ToBytes(SUCCESS_TEXT)

  datatype Header = Header(host: string, port: u16)

  datatype HeaderError = NoBlankLine | NotAscii | NoLine | BadLine | BadHostPort | BadPort

  predicate BlankLineAt(buf: Bytes, i: nat) {
    i + 4 <= |buf| && buf[i..i + 4] == CRLFCRLF
  }

  predicate HeaderComplete(buf: Bytes) {
    exists i | 0 <= i <= |buf| - 4 :: BlankLineAt(buf, i)
  }

  /** Where the first blank line begins. */
  function BlankLine(s: Bytes): (i: Option<nat>)
    ensures i.Some? ==> BlankLineAt(s, i.value)
  {
    if |s| < 4 then None
    else if s[..4] == CRLFCRLF then Some(0)
    else match BlankLine(s[1..]) case Some(i) => Some(i + 1) case None => None
  }

  /** The first line of a text, without its line ending. */
  function FirstLine(s: string): Option<string> {
    if s == [] then None
    else
      var line := Text.Split(s, '\n')[0];
      Some(if line != s && line != [] && line[|line| - 1] == '\r' then line[..|line| - 1] else line)
  }

  function ParseLine(line: string): Result<Header, HeaderError> {
    var tokens := Text.Words(line, Text.IsHttpSpace);
    if |tokens| != 3 || tokens[0] != "CONNECT" || tokens[2] != "HTTP/1.1" then Err(BadLine)
    else
      var hostport := Text.Split(tokens[1], ':');
      if |hostport| != 2 then Err(BadHostPort)
      else
        match Text.ParseU16(hostport[1])
        case None => Err(BadPort)
        case Some(port) => Ok(Header(hostport[0], port))
  }

  /** The header before the first blank line and the bytes after it. */
  function ParseHeader(buf: Bytes): Result<(Header, Bytes), HeaderError> {
    match BlankLine(buf)
    case None => Err(NoBlankLine)
    case Some(i) =>
      if !Text.IsAscii(buf[..i]) then Err(NotAscii)
      else
        match FirstLine(Text.Decode(buf[..i]))
        case None => Err(NoLine)
        case Some(line) =>
          match ParseLine(line)
          case Err(e) => Err(e)
          case Ok(header) => Ok((header, buf[i + 4..]))
  }

  lemma {:induction false} BlankLineAppend(s: Bytes, t: Bytes)
    ensures BlankLine(s).Some? ==> BlankLine(s + t) == BlankLine(s)
  {
    if |s| >= 4 {
      assert (s + t)[..4] == s[..4];
      assert (s + t)[1..] == s[1..] + t;
      BlankLineAppend(s[1..], t);
    }
  }

  // ----- the request a client is meant to send -----

  /** CONNECT host:port HTTP/1.1, with any blanks around the three words and a
      port written in some way that parses. */
  ghost predicate IsRequestLine(line: string, host: string, portText: string, port: u16) {
    && Text.HasWords(line, ["CONNECT", host + ":" + portText, "HTTP/1.1"], Text.HTTP_WHITE_SPACE)
    && ':' !in host && ':' !in portText && Text.WritesPort(portText, port)
  }

  lemma RequestWords(words: seq<string>, host: string, port: u16)
    requires |words| == 3
    ensures (words[0] == "CONNECT" && words[2] == "HTTP/1.1"
             && |Text.Split(words[1], ':')| == 2 && Text.Split(words[1], ':')[0] == host
             && Text.ParseU16(Text.Split(words[1], ':')[1]) == Some(port))
       <==> exists portText ::
              && words == ["CONNECT", host + ":" + portText, "HTTP/1.1"]
              && ':' !in host && ':' !in portText && Text.WritesPort(portText, port)
  {
    var halves := Text.Split(words[1], ':');
    Text.SplitInTwo(words[1], ':');
    if |halves| == 2 {
      Text.ParseU16Reads(halves[1], port);
      assert words == [words[0], words[1], words[2]];
    }
    forall portText | words[1] == host + ":" + portText && ':' !in host && ':' !in portText
      ensures halves == [host, portText] && (Text.ParseU16(portText) == Some(port) <==> Text.WritesPort(portText, port))
    {
      Text.SplitCons(host, ':', portText);
      Text.SplitAlone(portText, ':');
      Text.ParseU16Reads(portText, port);
    }
  }

  /** A line is accepted, for a host and a port, exactly if it is such a line. */
  lemma RequestLineReads(line: string, host: string, port: u16)
    ensures ParseLine(line) == Ok(Header(host, port))
       <==> exists portText :: IsRequestLine(line, host, portText, port)
  {
    var words := Text.Words(line, Text.IsHttpSpace);
    forall portText ensures IsRequestLine(line, host, portText, port)
      <==> words == ["CONNECT", host + ":" + portText, "HTTP/1.1"]
           && ':' !in host && ':' !in portText && Text.WritesPort(portText, port)
    {
      Text.HttpWordsAre(line, ["CONNECT", host + ":" + portText, "HTTP/1.1"]);
    }
    if |words| == 3 {
      RequestWords(words, host, port);
    }
  }

  /** The line ends where the text does or before the first line feed. */
  ghost predicate IsFirstLine(text: string, line: string, more: string) {
    text == line + more && '\n' !in line && (more == [] || more[0] == '\n')
  }

  /** The first line of the text is a request line. */
  ghost predicate BeginsWithRequest(text: string, host: string, port: u16) {
    exists line, more, portText :: IsFirstLine(text, line, more) && IsRequestLine(line, host, portText, port)
  }

  lemma FirstLineReads(text: string, line: string, more: string, header: Header)
    requires IsFirstLine(text, line, more)
    ensures text == [] ==> FirstLine(text) == None && ParseLine(line) != Ok(header)
    ensures text != [] ==>
      FirstLine(text).Some? && (ParseLine(FirstLine(text).value) == Ok(header) <==> ParseLine(line) == Ok(header))
  {
    if more == [] {
      assert text == line;
      Text.SplitAlone(line, '\n');
    } else {
      assert text == line + ['\n'] + more[1..];
      Text.SplitCons(line, '\n', more[1..]);
      if line != [] && line[|line| - 1] == '\r' {
        Text.WordsBefore(line[..|line| - 1], '\r', Text.IsHttpSpace);
        assert line == line[..|line| - 1] + ['\r'];
      }
    }
  }

  lemma LineDecides(text: string, line: string, more: string, header: Header)
    requires IsFirstLine(text, line, more)
    ensures (FirstLine(text).Some? && ParseLine(FirstLine(text).value) == Ok(header))
       <==> exists portText :: IsRequestLine(line, header.host, portText, header.port)
  {
    RequestLineReads(line, header.host, header.port);
    FirstLineReads(text, line, more, header);
  }

  lemma TextReads(text: string, header: Header)
    ensures (FirstLine(text).Some? && ParseLine(FirstLine(text).value) == Ok(header))
       <==> BeginsWithRequest(text, header.host, header.port)
  {
    var line, more := Text.UpTo(text, '\n');
    assert IsFirstLine(text, line, more);
    LineDecides(text, line, more, header);
    forall line', more', portText
      | IsFirstLine(text, line', more') && IsRequestLine(line', header.host, portText, header.port)
      ensures FirstLine(text).Some? && ParseLine(FirstLine(text).value) == Ok(header)
    {
      LineDecides(text, line', more', header);
    }
  }

  /** A CONNECT request: such a text in ASCII, the first blank line, and the
      bytes behind it. */
  ghost predicate IsRequest(stream: Bytes, host: string, port: u16, body: Bytes) {
    exists head, text ::
      && Text.Spells(head, text) && BeginsWithRequest(text, host, port)
      && stream == head + [13, 10, 13, 10] + body && FirstBlankLine(stream, |head|)
  }

  /** Two line ends, each a carriage return and a line feed. */
  ghost predicate TwoLineEndsAt(s: Bytes, i: nat) {
    i + 4 <= |s| && s[i] == 13 && s[i + 1] == 10 && s[i + 2] == 13 && s[i + 3] == 10
  }

  ghost predicate FirstBlankLine(s: Bytes, i: nat) {
    TwoLineEndsAt(s, i) && forall j: nat | j < i :: !TwoLineEndsAt(s, j)
  }

  lemma {:induction false} BlankLineIsFirst(s: Bytes, i: nat)
    ensures BlankLine(s) == Some(i) <==> FirstBlankLine(s, i)
  {
    if |s| >= 4 {
      assert s[..4] == CRLFCRLF <==> TwoLineEndsAt(s, 0);
      forall j: nat | j > 0 ensures TwoLineEndsAt(s, j) <==> TwoLineEndsAt(s[1..], j - 1) {
      }
      if i > 0 {
        BlankLineIsFirst(s[1..], i - 1);
        if FirstBlankLine(s, i) {
          forall j: nat | j < i - 1 ensures !TwoLineEndsAt(s[1..], j) {
            assert !TwoLineEndsAt(s, j + 1);
          }
        }
      }
    }
  }

  lemma {:induction false} NowhereBlank(s: Bytes)
    requires BlankLine(s) == None
    ensures forall j: nat :: !TwoLineEndsAt(s, j)
  {
    if |s| >= 4 {
      NowhereBlank(s[1..]);
      forall j: nat ensures !TwoLineEndsAt(s, j) {
        if j > 0 {
          assert !TwoLineEndsAt(s[1..], j - 1);
        }
      }
    }
  }

  /** The header is read, as a host and a port with these bytes behind it,
      exactly if the stream is such a request. */
  lemma RequestReads(stream: Bytes, host: string, port: u16, body: Bytes)
    ensures ParseHeader(stream) == Ok((Header(host, port), body)) <==> IsRequest(stream, host, port, body)
  {
    forall head, text | Text.Spells(head, text) && BeginsWithRequest(text, host, port)
        && stream == head + [13, 10, 13, 10] + body && FirstBlankLine(stream, |head|)
      ensures ParseHeader(stream) == Ok((Header(host, port), body))
    {
      RequestIsRead(stream, head, text, host, port, body);
    }
    if ParseHeader(stream) == Ok((Header(host, port), body)) {
      ReadIsRequest(stream, host, port, body);
    }
  }

  lemma RequestIsRead(stream: Bytes, head: Bytes, text: string, host: string, port: u16, body: Bytes)
    requires Text.Spells(head, text) && BeginsWithRequest(text, host, port)
    requires stream == head + [13, 10, 13, 10] + body && FirstBlankLine(stream, |head|)
    ensures ParseHeader(stream) == Ok((Header(host, port), body))
  {
    BlankLineIsFirst(stream, |head|);
    assert stream[..|head|] == head && stream[|head| + 4..] == body;
    Text.DecodeReads(head, text);
    TextReads(text, Header(host, port));
  }

  lemma BlankLineCuts(stream: Bytes, i: nat)
    requires TwoLineEndsAt(stream, i)
    ensures stream == stream[..i] + [13, 10, 13, 10] + stream[i + 4..]
  {
  }

  lemma ReadIsRequest(stream: Bytes, host: string, port: u16, body: Bytes)
    requires ParseHeader(stream) == Ok((Header(host, port), body))
    ensures IsRequest(stream, host, port, body)
  {
    var i := BlankLine(stream).value;
    BlankLineIsFirst(stream, i);
    var head, text := stream[..i], Text.Decode(stream[..i]);
    Text.DecodeReads(head, text);
    TextReads(text, Header(host, port));
    BlankLineCuts(stream, i);
  }

  datatype Status = Running | Finished | Failed

  /** The variables of the loop, and what the remote end has been sent. */
  datatype Tunnel = Tunnel(
    buffer: Option<Bytes>, connRead: bool, connWrite: bool, upstream: Bytes, status: Status)

  const NEW_TUNNEL: Tunnel := Tunnel(Some([]), false, false, [], Running)

  /** What the loop can wake up to. A chunk comes with the answers of the
      network: whether connecting works, and how many bytes the remote end
      takes before a write fails. */
  datatype Event =
    | Chunk(data: Bytes, connects: bool, takes: nat)
    | ClientGone
    | RemoteData(data: Bytes)
    | RemoteError

  /** Writing all of `data`, or as much as is taken before the write fails. */
  function WriteAll(t: Tunnel, data: Bytes, takes: nat): Tunnel {
    if |data| <= takes then t.(upstream := t.upstream + data)
    else t.(upstream := t.upstream + data[..takes], status := Failed)
  }

  /** Sends what came behind the header, then the reply to the client. */
  function Establish(t: Tunnel, remainder: Bytes, takes: nat, relayOpen: bool): (Tunnel, seq<Bytes>) {
    var w := WriteAll(t, remainder, takes);
    if w.status == Failed then (w, [])
    else if relayOpen then (w.(connRead := true, connWrite := true), [SUCCESS_REPLY])
    else (w.(connRead := true, connWrite := true, status := Failed), [])
  }

  function Connect(hosts: set<string>, t: Tunnel, buf: Bytes, e: Event, relayOpen: bool): (Tunnel, seq<Bytes>)
    requires e.Chunk?
  {
    match ParseHeader(buf)
    case Err(_) => (t.(buffer := None, status := Failed), [])
    case Ok(parsed) =>
      if parsed.0.host !in hosts || !e.connects then (t.(buffer := None, status := Failed), [])
      else Establish(t.(buffer := None), parsed.1, e.takes, relayOpen)
  }

  /** One turn of the loop: the new variables and the messages sent on the relay. */
  function Step(hosts: set<string>, t: Tunnel, e: Event, relayOpen: bool): (Tunnel, seq<Bytes>) {
    if t.status != Running then (t, [])
    else
      match e
      case ClientGone => (t.(status := Failed), [])
      case RemoteError => if t.connRead then (t.(status := Failed), []) else (t, [])
      case RemoteData(data) =>
        if !t.connRead then (t, [])
        else if data == [] then (t.(status := Finished), [])
        else if relayOpen then (t, [data])
        else (t.(status := Failed), [])
      case Chunk(data, _, takes) =>
        if t.connWrite then (WriteAll(t, data, takes), [])
        else
          match t.buffer
          case None => (t, [])
          case Some(held) =>
            var buf := held + data;
            if HeaderComplete(buf) then Connect(hosts, t, buf, e, relayOpen)
            else (t.(buffer := Some(buf)), [])
  }

  /** What a step has seen of the client's stream and of the remote end's. */
  function Consumed(t: Tunnel, e: Event): Bytes {
    if t.status == Running && e.Chunk? then e.data else []
  }

  function Relayed(t: Tunnel, e: Event, relayOpen: bool): seq<Bytes> {
    if t.status == Running && e.RemoteData? && t.connRead && relayOpen && e.data != [] then [e.data] else []
  }

  // ----- the one-shot view of the client's stream -----

  datatype Judgement = Incomplete | Rejected | Accepted(header: Header, body: Bytes)

  function Judge(hosts: set<string>, stream: Bytes): Judgement {
    if BlankLine(stream) == None then Incomplete
    else
      match ParseHeader(stream)
      case Err(_) => Rejected
      case Ok((header, body)) => if header.host in hosts then Accepted(header, body) else Rejected
  }

  /** What a loop that has read `stream` from the client may have done: nothing
      upstream and nothing relayed before the header is accepted; after that
      exactly the bytes behind the header upstream, in order, cut short only by
      a failed write, and on the relay one success reply and then the remote
      end's data. */
  ghost predicate Refines(hosts: set<string>, t: Tunnel, stream: Bytes, relayed: seq<Bytes>, remote: seq<Bytes>) {
    match Judge(hosts, stream)
    case Incomplete =>
      && t.upstream == [] && relayed == [] && remote == [] && t.status != Finished
      && (t.status == Running ==> t.buffer == Some(stream) && !t.connRead && !t.connWrite)
    case Rejected =>
      t.upstream == [] && relayed == [] && remote == [] && t.status == Failed
    case Accepted(_, body) =>
      && t.upstream <= body
      && (relayed == [SUCCESS_REPLY] + remote || (relayed == remote == []))
      && (t.status != Failed ==>
            t.connRead && t.connWrite && t.upstream == body && relayed == [SUCCESS_REPLY] + remote)
  }

  /** The header is complete exactly when there is a first blank line, so once
      it is complete the "Invalid header" error cannot occur. */
  lemma {:induction false} HeaderCompleteFindsBlankLine(buf: Bytes)
    ensures HeaderComplete(buf) <==> BlankLine(buf).Some?
    ensures HeaderComplete(buf) ==> ParseHeader(buf) != Err(NoBlankLine)
  {
    if HeaderComplete(buf) && buf[..4] != CRLFCRLF {
      var i :| 0 <= i <= |buf| - 4 && BlankLineAt(buf, i);
      assert i > 0 && buf[1..][i - 1..i + 3] == buf[i..i + 4];
      assert BlankLineAt(buf[1..], i - 1);
      HeaderCompleteFindsBlankLine(buf[1..]);
    }
  }

  /** Bytes behind the header do not change the judgement. */
  lemma JudgeAppend(hosts: set<string>, stream: Bytes, more: Bytes)
    ensures match Judge(hosts, stream)
      case Incomplete => true
      case Rejected => Judge(hosts, stream + more) == Rejected
      case Accepted(header, body) => Judge(hosts, stream + more) == Accepted(header, body + more)
  {
    BlankLineAppend(stream, more);
    if BlankLine(stream).Some? {
      var i := BlankLine(stream).value;
      assert (stream + more)[..i] == stream[..i];
      assert (stream + more)[i + 4..] == stream[i + 4..] + more;
    }
  }

  lemma OpenChunkRefines(hosts: set<string>, t: Tunnel, stream: Bytes, relayed: seq<Bytes>, remote: seq<Bytes>, e: Event)
    requires Refines(hosts, t, stream, relayed, remote) && t.status == Running && e.Chunk? && t.connWrite
    ensures Refines(hosts, WriteAll(t, e.data, e.takes), stream + e.data, relayed, remote)
  {
    JudgeAppend(hosts, stream, e.data);
    if |e.data| > e.takes {
      assert t.upstream + e.data[..e.takes] <= t.upstream + e.data;
    }
  }

  lemma HeaderChunkRefines(hosts: set<string>, t: Tunnel, stream: Bytes, e: Event, relayOpen: bool)
    requires Refines(hosts, t, stream, [], []) && t.status == Running && e.Chunk? && !t.connWrite
    ensures var (t', sent) := Step(hosts, t, e, relayOpen);
      Refines(hosts, t', stream + e.data, sent, [])
  {
    HeaderCompleteFindsBlankLine(stream + e.data);
    assert forall s: Bytes :: [] + s == s;
  }

  /** Each turn of the loop keeps to the one-shot view. */
  lemma StepRefines(
    hosts: set<string>, t: Tunnel, stream: Bytes, relayed: seq<Bytes>, remote: seq<Bytes>, e: Event, relayOpen: bool)
    requires Refines(hosts, t, stream, relayed, remote)
    ensures var (t', sent) := Step(hosts, t, e, relayOpen);
      Refines(hosts, t', stream + Consumed(t, e), relayed + sent, remote + Relayed(t, e, relayOpen))
  {
    assert stream + [] == stream && relayed + [] == relayed && remote + [] == remote;
    if t.status == Running && e.Chunk? {
      if t.connWrite {
        OpenChunkRefines(hosts, t, stream, relayed, remote, e);
      } else {
        HeaderChunkRefines(hosts, t, stream, e, relayOpen);
        assert forall s: seq<Bytes> :: [] + s == s;
      }
    } else if t.status == Running && e.RemoteData? && t.connRead && relayOpen && e.data != [] {
      assert [SUCCESS_REPLY] + remote + [e.data] == [SUCCESS_REPLY] + (remote + [e.data]);
    }
  }

  // ----- whole runs of the loop -----

  datatype History = History(t: Tunnel, stream: Bytes, relayed: seq<Bytes>, remote: seq<Bytes>)

  function Advance(hosts: set<string>, h: History, e: Event, relayOpen: bool): History {
    var step := Step(hosts, h.t, e, relayOpen);
    History(step.0, h.stream + Consumed(h.t, e), h.relayed + step.1, h.remote + Relayed(h.t, e, relayOpen))
  }

  /** The loop over a run of events, each with whether the session still reads
      its relay. */
  function Run(hosts: set<string>, events: seq<(Event, bool)>): History {
    if events == [] then History(NEW_TUNNEL, [], [], [])
    else
      var last := events[|events| - 1];
      Advance(hosts, Run(hosts, events[..|events| - 1]), last.0, last.1)
  }

  /** Over any run, whatever arrives and however the network behaves, the chunk
      loop refines the one-shot view of the bytes it has read. */
  lemma {:induction false} LoopRefinesOneShot(hosts: set<string>, events: seq<(Event, bool)>)
    ensures var h := Run(hosts, events); Refines(hosts, h.t, h.stream, h.relayed, h.remote)
  {
    if events != [] {
      LoopRefinesOneShot(hosts, events[..|events| - 1]);
      var h := Run(hosts, events[..|events| - 1]);
      var (e, relayOpen) := events[|events| - 1];
      StepRefines(hosts, h.t, h.stream, h.relayed, h.remote, e, relayOpen);
    }
  }

  // ----- the whole loop from its events alone -----

  /** A stream is judged by its first blank line: there is none, or what comes
      before it asks for an allowed host, or it does not. */
  lemma JudgeReads(hosts: set<string>, stream: Bytes, header: Header, body: Bytes)
    ensures Judge(hosts, stream) == Incomplete <==> forall i: nat :: !TwoLineEndsAt(stream, i)
    ensures Judge(hosts, stream) == Accepted(header, body)
       <==> IsRequest(stream, header.host, header.port, body) && header.host in hosts
  {
    if BlankLine(stream) == None {
      NowhereBlank(stream);
    } else {
      BlankLineIsFirst(stream, BlankLine(stream).value);
    }
    RequestReads(stream, header.host, header.port, body);
  }

  /** The reply to an accepted request: a status line, a header line and an
      empty one. */
  lemma SuccessReplyReads()
    ensures Text.Spells(SUCCESS_REPLY,
      "HTTP/1.0 200 Connection Established" + "\r\n" + "Proxy-agent: Apache/2.4.41 (Ubuntu)" + "\r\n" + "\r\n")
  {
    StatusIsPlain();
    AgentIsPlain();
  }

  lemma StatusIsPlain()
    ensures Text.AsciiText("HTTP/1.0 200 Connection Established")
  {
  }

  lemma AgentIsPlain()
    ensures Text.AsciiText("Proxy-agent: Apache/2.4.41 (Ubuntu)")
  {
  }

  /** What a run comes to: how it stands, what it has read, what it has sent
      upstream and what on the relay. */
  datatype Account = Account(status: Status, stream: Bytes, upstream: Bytes, relayed: seq<Bytes>)

  predicate Established(hosts: set<string>, a: Account) {
    Judge(hosts, a.stream).Accepted?
  }

  /** The remote end closes the connection. */
  predicate Finishes(hosts: set<string>, a: Account, e: Event) {
    Established(hosts, a) && e == RemoteData([])
  }

  /** The client is gone; the remote end's side breaks; the session does not
      take its data or the success reply; the header is rejected; connecting
      fails; or a write is cut short. */
  predicate Fails(hosts: set<string>, a: Account, e: Event, relayOpen: bool) {
    match e
    case ClientGone => true
    case RemoteError => Established(hosts, a)
    case RemoteData(data) => Established(hosts, a) && data != [] && !relayOpen
    case Chunk(data, connects, takes) =>
      match Judge(hosts, a.stream + data)
      case Incomplete => false
      case Rejected => true
      case Accepted(_, body) =>
        if Established(hosts, a) then takes < |data| else !connects || takes < |body| || !relayOpen
  }

  /** Upstream go a chunk behind the header, or what the first chunk that
      completes it has behind it, as far as they are taken. */
  function GoesUpstream(hosts: set<string>, a: Account, e: Event): Bytes {
    match e
    case Chunk(data, connects, takes) =>
      (match Judge(hosts, a.stream + data)
       case Accepted(_, body) =>
         var sent := if Established(hosts, a) then data else if connects then body else [];
         if |sent| <= takes then sent else sent[..takes]
       case _ => [])
    case _ => []
  }

  /** The chunk that completes an accepted header is replied to, and the remote
      end's data is passed on. */
  function GoesOnRelay(hosts: set<string>, a: Account, e: Event): seq<Bytes> {
    match e
    case Chunk(data, _, _) =>
      if !Established(hosts, a) && Judge(hosts, a.stream + data).Accepted? then [SUCCESS_REPLY] else []
    case RemoteData(data) => if Established(hosts, a) then [data] else []
    case _ => []
  }

  /** One more event on the account; nothing counts once the loop has ended. */
  function Entered(hosts: set<string>, a: Account, e: Event, relayOpen: bool): Account {
    if a.status != Running then a
    else
      var finishes, fails := Finishes(hosts, a, e), Fails(hosts, a, e, relayOpen);
      Account(
        if finishes then Finished else if fails then Failed else Running,
        a.stream + (match e case Chunk(data, _, _) => data case _ => []),
        a.upstream + GoesUpstream(hosts, a, e),
        a.relayed + if finishes || fails then [] else GoesOnRelay(hosts, a, e))
  }

  function AccountOf(hosts: set<string>, events: seq<(Event, bool)>): Account {
    if events == [] then Account(Running, [], [], [])
    else
      var (e, relayOpen) := events[|events| - 1];
      Entered(hosts, AccountOf(hosts, events[..|events| - 1]), e, relayOpen)
  }

  ghost predicate Accounted(h: History, a: Account) {
    h.t.status == a.status && h.stream == a.stream && h.t.upstream == a.upstream && h.relayed == a.relayed
  }

  ghost predicate TurnAccounted(hosts: set<string>, h: History, e: Event, relayOpen: bool) {
    var a := Account(Running, h.stream, h.t.upstream, h.relayed);
    var (t, sent) := Step(hosts, h.t, e, relayOpen);
    && t.status == (if Fails(hosts, a, e, relayOpen) then Failed else Running)
    && t.upstream == h.t.upstream + GoesUpstream(hosts, a, e)
    && sent == if Fails(hosts, a, e, relayOpen) then [] else GoesOnRelay(hosts, a, e)
  }

  lemma BodyAccounted(hosts: set<string>, h: History, e: Event, relayOpen: bool)
    requires Refines(hosts, h.t, h.stream, h.relayed, h.remote) && h.t.status == Running && e.Chunk?
    requires h.t.connWrite
    ensures TurnAccounted(hosts, h, e, relayOpen)
  {
    JudgeAppend(hosts, h.stream, e.data);
  }

  lemma HeaderAccounted(hosts: set<string>, h: History, e: Event, relayOpen: bool)
    requires Refines(hosts, h.t, h.stream, h.relayed, h.remote) && h.t.status == Running && e.Chunk?
    requires !h.t.connWrite
    ensures TurnAccounted(hosts, h, e, relayOpen)
  {
    HeaderCompleteFindsBlankLine(h.stream + e.data);
    assert h.t.upstream + [] == h.t.upstream;
  }

  lemma StepAccounted(hosts: set<string>, h: History, a: Account, e: Event, relayOpen: bool)
    requires Refines(hosts, h.t, h.stream, h.relayed, h.remote) && Accounted(h, a)
    ensures Accounted(Advance(hosts, h, e, relayOpen), Entered(hosts, a, e, relayOpen))
  {
    assert h.relayed + [] == h.relayed && h.stream + [] == h.stream && h.t.upstream + [] == h.t.upstream;
    if h.t.status == Running && e.Chunk? {
      if h.t.connWrite {
        BodyAccounted(hosts, h, e, relayOpen);
      } else {
        HeaderAccounted(hosts, h, e, relayOpen);
      }
    }
  }

  /** From the events alone: the loop ends well exactly when the remote end
      closes an established connection, fails exactly in the ways listed, and
      until then sends upstream and on the relay exactly what it should. */
  lemma {:induction false} RunIsAccounted(hosts: set<string>, events: seq<(Event, bool)>)
    ensures Accounted(Run(hosts, events), AccountOf(hosts, events))
  {
    if events != [] {
      var n := |events| - 1;
      RunIsAccounted(hosts, events[..n]);
      LoopRefinesOneShot(hosts, events[..n]);
      StepAccounted(hosts, Run(hosts, events[..n]), AccountOf(hosts, events[..n]), events[n].0, events[n].1);
    }
  }

  function Received(events: seq<(Event, bool)>): Bytes {
    if events == [] then []
    else Received(events[..|events| - 1]) + (match events[|events| - 1].0 case Chunk(data, _, _) => data case _ => [])
  }

  /** Connecting works, writes are never cut short, the session reads its
      relay, and neither end closes its side. */
  ghost predicate Smooth(events: seq<(Event, bool)>) {
    forall i | 0 <= i < |events| :: events[i].1 && SmoothEvent(events[i].0, |Received(events)|)
  }

  ghost predicate SmoothEvent(e: Event, total: nat) {
    match e
    case Chunk(_, connects, takes) => connects && takes >= total
    case RemoteData(data) => data != []
    case _ => false
  }

  /** Where the loop stands, and all it has done, as a function of the bytes
      received and of what the remote end has sent, when nothing has gone wrong. */
  ghost predicate DecidedByBytes(hosts: set<string>, h: History, received: Bytes) {
    match Judge(hosts, received)
    case Incomplete => h.t == NEW_TUNNEL.(buffer := Some(received)) && h.relayed == h.remote == []
    case Rejected => h.t.status == Failed && h.t.upstream == [] && h.relayed == h.remote == []
    case Accepted(_, body) =>
      h.t == Tunnel(None, true, true, body, Running) && h.relayed == [SUCCESS_REPLY] + h.remote
  }

  lemma SmoothChunk(hosts: set<string>, h: History, received: Bytes, e: Event)
    requires DecidedByBytes(hosts, h, received)
    requires e.Chunk? && e.connects && e.takes >= |received + e.data|
    ensures DecidedByBytes(hosts, Advance(hosts, h, e, true), received + e.data)
  {
    JudgeAppend(hosts, received, e.data);
    HeaderCompleteFindsBlankLine(received + e.data);
    assert [] + e.data == e.data && h.relayed + [] == h.relayed && h.remote + [] == h.remote;
    assert [SUCCESS_REPLY] + [] == [SUCCESS_REPLY] == [] + [SUCCESS_REPLY];
    if Judge(hosts, received) == Incomplete && HeaderComplete(received + e.data) {
      var parsed := ParseHeader(received + e.data);
      if parsed.Ok? {
        assert [] + parsed.value.1 == parsed.value.1;
      }
    }
  }

  lemma SmoothRemote(hosts: set<string>, h: History, received: Bytes, e: Event)
    requires DecidedByBytes(hosts, h, received) && e.RemoteData? && e.data != []
    ensures DecidedByBytes(hosts, Advance(hosts, h, e, true), received)
  {
    assert h.relayed + [] == h.relayed && h.remote + [] == h.remote;
    assert [SUCCESS_REPLY] + h.remote + [e.data] == [SUCCESS_REPLY] + (h.remote + [e.data]);
  }

  lemma {:induction false} ReceivedPrefix(events: seq<(Event, bool)>, n: nat)
    requires n <= |events|
    ensures Received(events[..n]) <= Received(events)
  {
    if n < |events| {
      assert events[..|events| - 1][..n] == events[..n];
      ReceivedPrefix(events[..|events| - 1], n);
    } else {
      assert events[..n] == events;
    }
  }

  /** When nothing goes wrong, the way the client's bytes are cut into chunks,
      and the remote end's data comes in between them, makes no difference: what
      goes upstream and whether the loop stops depend on the client's whole
      stream alone, and what is relayed is the success reply and then the remote
      end's data. */
  lemma {:induction false} ChunksDoNotMatter(hosts: set<string>, events: seq<(Event, bool)>)
    requires Smooth(events)
    ensures DecidedByBytes(hosts, Run(hosts, events), Received(events))
  {
    if events != [] {
      var n := |events| - 1;
      var before, e := events[..n], events[n].0;
      ReceivedPrefix(events, n);
      assert forall i | 0 <= i < n :: before[i] == events[i];
      ChunksDoNotMatter(hosts, before);
      if e.Chunk? {
        SmoothChunk(hosts, Run(hosts, before), Received(before), e);
      } else {
        assert Received(before) + [] == Received(before);
        SmoothRemote(hosts, Run(hosts, before), Received(before), e);
      }
    }
  }

  /** The task with its own variables. */
  class ConnectLoop {
    const hosts: set<string>
    var buffer: Option<Bytes>
    var connRead: bool
    var connWrite: bool
    var upstream: Bytes
    var relayed: seq<Bytes>
    var status: Status

    function State(): Tunnel
      reads this
    {
      Tunnel(buffer, connRead, connWrite, upstream, status)
    }

    constructor (hosts: set<string>)
      ensures this.hosts == hosts && State() == NEW_TUNNEL && relayed == []
    {
      this.hosts := hosts;
      buffer, connRead, connWrite, upstream, relayed, status := Some([]), false, false, [], [], Running;
    }

    method Write(data: Bytes, takes: nat)
      modifies this`upstream, this`status
      ensures State() == WriteAll(old(State()), data, takes)
    {
      if |data| <= takes {
        upstream := upstream + data;
      } else {
        upstream, status := upstream + data[..takes], Failed;
      }
    }

    /** A chunk from the client. */
    method TakeChunk(e: Event, relayOpen: bool)
      requires e.Chunk? && status == Running
      modifies this
      ensures var (t, sent) := Step(hosts, old(State()), e, relayOpen);
        State() == t && relayed == old(relayed) + sent
    {
      if connWrite {
        Write(e.data, e.takes);
      } else if buffer.Some? {
        var buf := buffer.value + e.data;
        buffer := None;
        if !HeaderComplete(buf) {
          buffer := Some(buf);
          return;
        }
        var parsed := ParseHeader(buf);
        if parsed.Err? || parsed.value.0.host !in hosts || !e.connects {
          status := Failed;
          return;
        }
        Write(parsed.value.1, e.takes);
        if status == Failed {
          return;
        }
        connRead, connWrite := true, true;
        if relayOpen {
          relayed := relayed + [SUCCESS_REPLY];
        } else {
          status := Failed;
        }
      }
    }

    /** One turn of the loop, whatever it wakes up to. */
    method Turn(e: Event, relayOpen: bool)
      modifies this
      ensures var (t, sent) := Step(hosts, old(State()), e, relayOpen);
        State() == t && relayed == old(relayed) + sent
    {
      if status != Running {
        return;
      }
      match e
      case Chunk(_, _, _) =>
        TakeChunk(e, relayOpen);
      case ClientGone =>
        status := Failed;
      case RemoteError =>
        if connRead {
          status := Failed;
        }
      case RemoteData(data) =>
        if connRead {
          if |data| == 0 {
            status := Finished;
          } else if relayOpen {
            relayed := relayed + [data];
          } else {
            status := Failed;
          }
        }
    }

    method RunLoop(events: seq<(Event, bool)>)
      requires State() == NEW_TUNNEL && relayed == []
      modifies this
      ensures var h := Run(hosts, events); State() == h.t && relayed == h.relayed
      ensures var a := AccountOf(hosts, events);
        status == a.status && upstream == a.upstream && relayed == a.relayed
    {
      for i := 0 to |events|
        invariant var h := Run(hosts, events[..i]); State() == h.t && relayed == h.relayed
      {
        assert events[..i + 1][..i] == events[..i];
        Turn(events[i].0, events[i].1);
      }
      assert events[..|events|] == events;
      RunIsAccounted(hosts, events);
    }
  }
}
