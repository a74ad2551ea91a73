/** A WebTransport session (src/webtransport/client.rs): commands and stream
    data arrive as chunks of one byte stream, datagrams beside it. */
module WebTransport {
  import opened Wrappers
  import opened BigEndian
  import opened Sequences
  import opened Commands
  import opened Session
  import Text

  const NEWLINE: byte := 10

  /** What the session writes to its client. */
  datatype Output = Line(response: string) | Stream(data: Bytes) | Datagram(data: Bytes)

  /** The fields of the runner, the service it talks to, and what it has
      written and passed on so far, the latter message by message. `answers` is how many more responses its
      connection takes before a write fails, and `accepting` whether the lease
      still takes data; neither is for the session to decide. */
  datatype Runner<S> = Runner(
    service: S,
    relayTx: Option<Relay>,
    lease: Option<LeaseId>,
    send: bool,
    relayUdp: bool,
    cmdbuf: Bytes,
    output: seq<Output>,
    forwarded: seq<Bytes>,
    answers: nat,
    accepting: bool)

  /** A handler either returns or fails; a failed session is over, and all that
      remains of it is what it did before. */
  datatype Flow<S> = Going(w: Runner<S>) | Failed(w: Runner<S>)

  function IndexOf(b: byte, s: Bytes): (i: Option<nat>)
    ensures i.Some? ==> i.value < |s| && s[i.value] == b && b !in s[..i.value]
    ensures i.None? ==> b !in s
  {
    if s == [] then None
    else if s[0] == b then Some(0)
    else match IndexOf(b, s[1..]) case Some(i) => Some(i + 1) case None => None
  }

  /** Stream data on a session that has a lease. */
  function OnStream(data: Bytes, relayUdp: bool): DataAction {
    if data == [] then Drop else if relayUdp then Refuse else Forward
  }

  /** A datagram from the client. */
  function OnDatagram(lease: bool, relayUdp: bool): DataAction {
    if !lease then Drop else if relayUdp then Forward else Refuse
  }

  /** A message off the relay, none when the relay is closed. `live` is what the
      lease says of itself, if there is a lease. */
  function OnRelay(message: Option<Bytes>, live: Option<bool>, relayUdp: bool): RelayAction {
    match message
    case None => Finish
    case Some(data) =>
      if data == [] then if live == Some(false) then Finish else Skip
      else if relayUdp then WriteDatagram else Write
  }

  function RelayStream<S>(w: Runner<S>, data: Bytes): Flow<S> {
    match OnStream(data, w.relayUdp)
    case Drop => Going(w)
    case Refuse => Failed(w)
    case Forward => if w.accepting then Going(w.(forwarded := w.forwarded + [data])) else Failed(w)
  }

  /** One complete command, without its newline. The lease is in place before
      the response is written. */
  function RunLine<S>(ip: IpText, service: Service<S>, w: Runner<S>, line: Bytes): Flow<S> {
    var e := Execute(ip, service, w.service, line, w.relayTx);
    var w := w.(service := e.state, relayTx := e.relay);
    match e.result
    case None => Failed(w)
    case Some(result) =>
      var w := if result.newLease.Some? then w.(lease := result.newLease, relayUdp := result.relayUdp) else w;
      if w.answers == 0 then Failed(w)
      else Going(w.(output := w.output + [Line(result.response)], answers := w.answers - 1))
  }

  /** The command loop over what has been buffered. `limit` is the size at
      which an unfinished command is given up. */
  function Drain<S>(ip: IpText, service: Service<S>, limit: nat, w: Runner<S>): Flow<S>
    decreases |w.cmdbuf|
  {
    if w.lease.Some? then RelayStream(w.(cmdbuf := []), w.cmdbuf)
    else
      match IndexOf(NEWLINE, w.cmdbuf)
      case None => if |w.cmdbuf| >= limit then Failed(w) else Going(w)
      case Some(n) =>
        match RunLine(ip, service, w.(cmdbuf := w.cmdbuf[n + 1..]), w.cmdbuf[..n])
        case Failed(w') => Failed(w')
        case Going(w') => Drain(ip, service, limit, w')
  }

  /** One chunk of the client's stream. */
  function HandleData<S>(ip: IpText, service: Service<S>, limit: nat, w: Runner<S>, data: Bytes): Flow<S> {
    if w.lease.Some? then RelayStream(w, data)
    else Drain(ip, service, limit, w.(cmdbuf := w.cmdbuf + data))
  }

  /** The stream chunk by chunk, until a chunk fails the session. */
  function Feed<S>(ip: IpText, service: Service<S>, limit: nat, w: Runner<S>, chunks: seq<Bytes>): Flow<S>
    decreases |chunks|
  {
    if chunks == [] then Going(w)
    else
      match HandleData(ip, service, limit, w, chunks[0])
      case Failed(w') => Failed(w')
      case Going(w') => Feed(ip, service, limit, w', chunks[1..])
  }

  /** Between chunks nothing that could be processed is left in the buffer. */
  ghost predicate Idle<S>(limit: nat, w: Runner<S>) {
    if w.lease.Some? then w.cmdbuf == [] else NEWLINE !in w.cmdbuf && |w.cmdbuf| < limit
  }

  /** The same result, leaving aside the unread bytes of a failed session, and
      how the bytes passed on are divided into messages. */
  ghost predicate SameOutcome<S>(f: Flow<S>, g: Flow<S>) {
    && f.Failed? == g.Failed?
    && f.w.(cmdbuf := [], forwarded := []) == g.w.(cmdbuf := [], forwarded := [])
    && Concat(f.w.forwarded) == Concat(g.w.forwarded)
    && (f.Going? ==> f.w.cmdbuf == g.w.cmdbuf)
  }

  lemma {:induction false} IndexOfAppend(b: byte, s: Bytes, t: Bytes)
    ensures b in s ==> IndexOf(b, s + t) == IndexOf(b, s)
    ensures b !in s && IndexOf(b, s + t).Some? ==> IndexOf(b, s + t).value >= |s|
  {
    if s == [] {
      assert s + t == t;
    } else {
      assert (s + t)[1..] == s[1..] + t;
      IndexOfAppend(b, s[1..], t);
    }
  }

  lemma {:induction false} IndexOfLine(b: byte, line: Bytes, rest: Bytes)
    requires b !in line
    ensures IndexOf(b, line + [b] + rest) == Some(|line|)
  {
    if line != [] {
      assert (line + [b] + rest)[1..] == line[1..] + [b] + rest;
      IndexOfLine(b, line[1..], rest);
    }
  }

  lemma RelayStreamAppend<S>(w: Runner<S>, data: Bytes, more: Bytes)
    ensures var f := RelayStream(w, data);
      SameOutcome(RelayStream(w, data + more), if f.Going? then RelayStream(f.w, more) else f)
  {
    ConcatAppend(w.forwarded, data + more);
    ConcatAppend(w.forwarded, data);
    ConcatAppend(w.forwarded + [data], more);
    assert Concat(w.forwarded) + (data + more) == Concat(w.forwarded) + data + more;
    if more == [] {
      assert data + more == data;
    }
    if data == [] {
      assert data + more == more;
    }
  }

  /** Running a line does not look at the bytes behind it. */
  lemma RunLineIgnoresBuffer<S>(
    ip: IpText, service: Service<S>, w: Runner<S>, rest: Bytes, rest': Bytes, line: Bytes)
    ensures var f, g := RunLine(ip, service, w.(cmdbuf := rest), line), RunLine(ip, service, w.(cmdbuf := rest'), line);
      f.Failed? == g.Failed? && g.w == f.w.(cmdbuf := rest') && f.w == g.w.(cmdbuf := rest)
  {
    RunLineKeepsBuffer(ip, service, w, rest, line);
    RunLineKeepsBuffer(ip, service, w, rest', line);
  }

  lemma RunLineKeepsBuffer<S>(ip: IpText, service: Service<S>, w: Runner<S>, rest: Bytes, line: Bytes)
    ensures var f, g := RunLine(ip, service, w, line), RunLine(ip, service, w.(cmdbuf := rest), line);
      f.Failed? == g.Failed? && g.w == f.w.(cmdbuf := rest)
  {
  }

  /** The loop takes the first line off the buffer, whatever follows it. */
  lemma DrainLine<S>(ip: IpText, service: Service<S>, limit: nat, w: Runner<S>, line: Bytes, rest: Bytes)
    requires w.lease.None? && 10 !in line
    ensures var f := RunLine(ip, service, w.(cmdbuf := rest), line);
      Drain(ip, service, limit, w.(cmdbuf := line + [10] + rest))
        == if f.Going? then Drain(ip, service, limit, f.w) else f
  {
    var buffer := line + [NEWLINE] + rest;
    IndexOfLine(NEWLINE, line, rest);
    assert buffer[..|line|] == line && buffer[|line| + 1..] == rest;
  }

  /** An unfinished command beyond the limit fails, now or once it is finished. */
  lemma OverlongDrain<S>(ip: IpText, service: Service<S>, limit: nat, w: Runner<S>, more: Bytes)
    requires limit > 255 && w.lease.None? && NEWLINE !in w.cmdbuf && |w.cmdbuf| >= limit
    ensures var f := Drain(ip, service, limit, w.(cmdbuf := w.cmdbuf + more));
      f.Failed? && f.w.(cmdbuf := []) == w.(cmdbuf := [])
  {
    IndexOfAppend(NEWLINE, w.cmdbuf, more);
    var n := IndexOf(NEWLINE, w.cmdbuf + more);
    if n.Some? {
      OverlongFails(ip, service, w.service, (w.cmdbuf + more)[..n.value], w.relayTx);
    }
  }

  /** Bytes that arrive later may as well have been in the buffer already. */
  lemma {:induction false} DrainAppend<S>(
    ip: IpText, service: Service<S>, limit: nat, w: Runner<S>, more: Bytes)
    requires limit > 255
    ensures var f := Drain(ip, service, limit, w);
      SameOutcome(
        Drain(ip, service, limit, w.(cmdbuf := w.cmdbuf + more)),
        if f.Going? then HandleData(ip, service, limit, f.w, more) else f)
    decreases |w.cmdbuf|
  {
    if w.lease.Some? {
      RelayStreamAppend(w.(cmdbuf := []), w.cmdbuf, more);
    } else if NEWLINE in w.cmdbuf {
      var n := IndexOf(NEWLINE, w.cmdbuf).value;
      var line, rest := w.cmdbuf[..n], w.cmdbuf[n + 1..];
      assert w.cmdbuf == line + [NEWLINE] + rest;
      assert w.cmdbuf + more == line + [NEWLINE] + (rest + more);
      assert w.(cmdbuf := w.cmdbuf) == w;
      DrainLine(ip, service, limit, w, line, rest);
      DrainLine(ip, service, limit, w, line, rest + more);
      RunLineIgnoresBuffer(ip, service, w, rest, rest + more, line);
      var f := RunLine(ip, service, w.(cmdbuf := rest), line);
      if f.Going? {
        DrainAppend(ip, service, limit, f.w, more);
      }
    } else if |w.cmdbuf| >= limit {
      OverlongDrain(ip, service, limit, w, more);
    }
  }

  /** A handled chunk leaves nothing behind that could be processed. */
  lemma {:induction false} DrainIdle<S>(ip: IpText, service: Service<S>, limit: nat, w: Runner<S>)
    ensures var f := Drain(ip, service, limit, w); f.Going? ==> Idle(limit, f.w)
    decreases |w.cmdbuf|
  {
    if w.lease.None? && IndexOf(NEWLINE, w.cmdbuf).Some? {
      var n := IndexOf(NEWLINE, w.cmdbuf).value;
      var f := RunLine(ip, service, w.(cmdbuf := w.cmdbuf[n + 1..]), w.cmdbuf[..n]);
      if f.Going? {
        DrainIdle(ip, service, limit, f.w);
      }
    }
  }

  /** Any run of chunks has the outcome of the whole stream in one piece. */
  lemma {:induction false} FeedIsWhole<S>(
    ip: IpText, service: Service<S>, limit: nat, w: Runner<S>, chunks: seq<Bytes>)
    requires limit > 255 && Idle(limit, w)
    ensures SameOutcome(
      Feed(ip, service, limit, w, chunks),
      HandleData(ip, service, limit, w, Concat(chunks)))
    decreases |chunks|
  {
    if chunks == [] {
      assert w.cmdbuf + [] == w.cmdbuf;
    } else {
      var first, rest := chunks[0], Concat(chunks[1..]);
      var f := HandleData(ip, service, limit, w, first);
      if w.lease.Some? {
        RelayStreamAppend(w, first, rest);
      } else {
        assert w.cmdbuf + (first + rest) == (w.cmdbuf + first) + rest;
        DrainAppend(ip, service, limit, w.(cmdbuf := w.cmdbuf + first), rest);
        DrainIdle(ip, service, limit, w.(cmdbuf := w.cmdbuf + first));
      }
      if f.Going? {
        FeedIsWhole(ip, service, limit, f.w, chunks[1..]);
      }
    }
  }

  /** However a stream is cut into chunks, the responses, the commands the
      service sees, the lease, the bytes passed on and the verdict are the same.
      How those bytes are divided into messages is not: that is the cutting. */
  lemma ChunksDoNotMatter<S>(
    ip: IpText, service: Service<S>, w: Runner<S>, chunks: seq<Bytes>, chunks': seq<Bytes>)
    requires Idle(MAX_COMMAND_SIZE, w) && Concat(chunks) == Concat(chunks')
    ensures SameOutcome(
      Feed(ip, service, MAX_COMMAND_SIZE, w, chunks),
      Feed(ip, service, MAX_COMMAND_SIZE, w, chunks'))
  {
    FeedIsWhole(ip, service, MAX_COMMAND_SIZE, w, chunks);
    FeedIsWhole(ip, service, MAX_COMMAND_SIZE, w, chunks');
  }

  lemma {:induction false} DrainAnswers<S>(ip: IpText, service: Service<S>, limit: nat, w: Runner<S>)
    ensures var f := Drain(ip, service, limit, w);
      |f.w.output| + f.w.answers == |w.output| + w.answers && |f.w.output| >= |w.output|
    decreases |w.cmdbuf|
  {
    if w.lease.None? && IndexOf(NEWLINE, w.cmdbuf).Some? {
      var n := IndexOf(NEWLINE, w.cmdbuf).value;
      var f := RunLine(ip, service, w.(cmdbuf := w.cmdbuf[n + 1..]), w.cmdbuf[..n]);
      if f.Going? {
        DrainAnswers(ip, service, limit, f.w);
      }
    }
  }

  /** Each response takes one write, so a session never answers more commands
      than its connection takes responses. */
  lemma {:induction false} OneWriteEach<S>(
    ip: IpText, service: Service<S>, limit: nat, w: Runner<S>, chunks: seq<Bytes>)
    ensures var f := Feed(ip, service, limit, w, chunks);
      |f.w.output| + f.w.answers == |w.output| + w.answers && |f.w.output| >= |w.output|
    decreases |chunks|
  {
    if chunks != [] {
      DrainAnswers(ip, service, limit, w.(cmdbuf := w.cmdbuf + chunks[0]));
      var f := HandleData(ip, service, limit, w, chunks[0]);
      if f.Going? {
        OneWriteEach(ip, service, limit, f.w, chunks[1..]);
      }
    }
  }

  function NonEmpty(chunks: seq<Bytes>): seq<Bytes> {
    if chunks == [] then []
    else if chunks[0] == [] then NonEmpty(chunks[1..])
    else [chunks[0]] + NonEmpty(chunks[1..])
  }

  /** On a stream link that takes data, every nonempty chunk is one message. */
  lemma {:induction false} ChunksAreMessages<S>(
    ip: IpText, service: Service<S>, limit: nat, w: Runner<S>, chunks: seq<Bytes>)
    requires w.lease.Some? && !w.relayUdp && w.accepting
    ensures Feed(ip, service, limit, w, chunks) == Going(w.(forwarded := w.forwarded + NonEmpty(chunks)))
    decreases |chunks|
  {
    if chunks == [] {
      assert w.forwarded + [] == w.forwarded;
    } else {
      var f := HandleData(ip, service, limit, w, chunks[0]);
      ChunksAreMessages(ip, service, limit, f.w, chunks[1..]);
      if chunks[0] != [] {
        assert w.forwarded + [chunks[0]] + NonEmpty(chunks[1..])
            == w.forwarded + ([chunks[0]] + NonEmpty(chunks[1..]));
      }
    }
  }

  /** A PING of at least `n` bytes, within the command limit. */
  function PingOf(n: nat): (ping: Bytes)
    requires n <= 255
    ensures n <= |ping| <= 255 && NEWLINE !in ping && Text.IsAscii(ping)
    ensures "PING" <= Text.Decode(ping)
  {
    var text := "PING" + seq(if n < 4 then 0 else n - 4, _ => '.');
    var ping := Text.Encode(text);
    assert text[..4] == "PING";
    ping
  }

  lemma WholePing<S>(ip: IpText, service: Service<S>, limit: nat, w: Runner<S>, ping: Bytes)
    requires w.lease.None? && w.cmdbuf == [] && w.answers > 0
    requires |ping| <= 255 && NEWLINE !in ping && Text.IsAscii(ping) && "PING" <= Text.Decode(ping)
    ensures |Feed(ip, service, limit, w, [ping + [NEWLINE]]).w.output| == |w.output| + 1
  {
    var f := RunLine(ip, service, w.(cmdbuf := []), ping);
    assert f.Going? && f.w.lease.None? && f.w.cmdbuf == [] && |f.w.output| == |w.output| + 1;
    DrainLine(ip, service, limit, w, ping, []);
    assert w.cmdbuf + (ping + [NEWLINE]) == ping + [NEWLINE] + [];
    assert HandleData(ip, service, limit, w, ping + [NEWLINE]).w == f.w;
  }

  lemma CutPing<S>(ip: IpText, service: Service<S>, limit: nat, w: Runner<S>, ping: Bytes)
    requires w.lease.None? && w.cmdbuf == [] && NEWLINE !in ping && |ping| >= limit
    ensures Feed(ip, service, limit, w, [ping, [NEWLINE]]) == Failed(w.(cmdbuf := ping))
  {
    assert w.cmdbuf + ping == ping;
    assert HandleData(ip, service, limit, w, ping) == Failed(w.(cmdbuf := ping));
  }

  /** The size limit has to exceed the longest command: under a smaller one a
      long enough PING is answered if its newline comes along in the same
      chunk, and ends the session if the newline comes in the next. */
  lemma ChunksMatterBelowTheLimit<S>(ip: IpText, service: Service<S>, limit: nat, w: Runner<S>)
    requires limit <= 255 && w.lease.None? && w.cmdbuf == [] && w.answers > 0
    ensures var whole, cut := [PingOf(limit) + [NEWLINE]], [PingOf(limit), [NEWLINE]];
      && Concat(whole) == Concat(cut)
      && |Feed(ip, service, limit, w, whole).w.output| == |w.output| + 1
      && Feed(ip, service, limit, w, cut).Failed?
      && Feed(ip, service, limit, w, cut).w.output == w.output
  {
    var ping := PingOf(limit);
    ConcatAppend([ping], [NEWLINE]);
    ConcatAppend([], ping);
    ConcatAppend([], ping + [NEWLINE]);
    assert [ping] + [[NEWLINE]] == [ping, [NEWLINE]] && [] + [ping] == [ping];
    assert [] + [ping + [NEWLINE]] == [ping + [NEWLINE]];
    WholePing(ip, service, limit, w, ping);
    CutPing(ip, service, limit, w, ping);
  }

  /** A session either still has its relay or has exchanged it for a lease;
      only a lease makes it datagram-only; and a lease leaves nothing to read
      as a command. */
  ghost predicate Sound<S>(w: Runner<S>) {
    && (w.relayTx.Some? <==> w.lease.None?)
    && (w.lease.None? ==> !w.relayUdp)
    && (w.lease.Some? ==> w.send && w.cmdbuf == [])
  }

  /** The exchange happens at most once: a lease is never replaced. */
  lemma {:induction false} DrainSound<S>(ip: IpText, service: Service<S>, limit: nat, w: Runner<S>)
    requires w.send && (w.relayTx.Some? <==> w.lease.None?) && (w.lease.None? ==> !w.relayUdp)
    ensures var f := Drain(ip, service, limit, w);
      && (f.Going? ==> Sound(f.w))
      && (w.lease.Some? ==> f.w.lease == w.lease && f.w.relayUdp == w.relayUdp)
    decreases |w.cmdbuf|
  {
    if w.lease.None? && IndexOf(NEWLINE, w.cmdbuf).Some? {
      var n := IndexOf(NEWLINE, w.cmdbuf).value;
      var line := w.cmdbuf[..n];
      RelayExchangedForLease(ip, service, w.service, line, w.relayTx);
      var f := RunLine(ip, service, w.(cmdbuf := w.cmdbuf[n + 1..]), line);
      if f.Going? {
        DrainSound(ip, service, limit, f.w);
      }
    }
  }

  class WebTransportClient<S> {
    const processor: CommandProcessor<S>
    var relayTx: Option<Relay>
    var lease: Option<LeaseId>
    var send: bool
    var relayUdp: bool
    var cmdbuf: Bytes
    var output: seq<Output>
    var forwarded: seq<Bytes>
    var answers: nat
    var datagrams: seq<Bytes>
    var accepting: bool

    function State(): Runner<S>
      reads this, processor
    {
      Runner(processor.state, relayTx, lease, send, relayUdp, cmdbuf, output, forwarded, answers, accepting)
    }

    constructor (processor: CommandProcessor<S>, relay: Relay, answers: nat)
      ensures this.processor == processor
      ensures State() == Runner(processor.state, Some(relay), None, false, false, [], [], [], answers, true)
      ensures Sound(State()) && Idle(MAX_COMMAND_SIZE, State())
    {
      this.processor := processor;
      relayTx, lease, send, relayUdp, cmdbuf := Some(relay), None, false, false, [];
      output, forwarded, datagrams, accepting := [], [], [], true;
      this.answers := answers;
    }

    method AcceptStream() returns (ok: bool)
      requires Sound(State())
      modifies this`send
      ensures ok == !old(send) && send && Sound(State())
    {
      if send {
        return false;
      }
      send := true;
      return true;
    }

    method RelayData(data: Bytes) returns (ok: bool)
      modifies this`forwarded
      ensures (if ok then Going(State()) else Failed(State())) == RelayStream(old(State()), data)
    {
      if data == [] {
        return true;
      }
      if relayUdp {
        return false;
      }
      if accepting {
        forwarded := forwarded + [data];
      }
      return accepting;
    }

    /** One complete command. */
    method TakeCommand(cmd: Bytes) returns (ok: bool)
      modifies this`relayTx, this`lease, this`relayUdp, this`output, this`answers, processor
      ensures (if ok then Going(State()) else Failed(State()))
        == RunLine(processor.ip, processor.service, old(State()), cmd)
    {
      var result, relay := processor.HandleCommand(cmd, relayTx);
      relayTx := relay;
      if result.None? {
        return false;
      }
      if result.value.newLease.Some? {
        lease := result.value.newLease;
        relayUdp := result.value.relayUdp;
      }
      if answers == 0 {
        return false;
      }
      output, answers := output + [Line(result.value.response)], answers - 1;
      return true;
    }

    /** Takes commands off the buffer until there is a lease or no complete
        command is left. What follows the command that made the lease is data. */
    method DrainBuffer() returns (ok: bool)
      modifies this`relayTx, this`lease, this`relayUdp, this`cmdbuf, this`output, this`forwarded, this`answers, processor
      ensures (if ok then Going(State()) else Failed(State()))
        == Drain(processor.ip, processor.service, MAX_COMMAND_SIZE, old(State()))
    {
      ghost var outcome := Drain(processor.ip, processor.service, MAX_COMMAND_SIZE, State());
      while lease.None?
        invariant Drain(processor.ip, processor.service, MAX_COMMAND_SIZE, State()) == outcome
        decreases lease.None?, |cmdbuf|
      {
        var newline := IndexOf(NEWLINE, cmdbuf);
        if newline.None? {
          return |cmdbuf| < MAX_COMMAND_SIZE;
        }
        ghost var line := RunLine(processor.ip, processor.service,
          State().(cmdbuf := cmdbuf[newline.value + 1..]), cmdbuf[..newline.value]);
        assert outcome == if line.Going? then Drain(processor.ip, processor.service, MAX_COMMAND_SIZE, line.w) else line;
        var cmd := cmdbuf[..newline.value];
        cmdbuf := cmdbuf[newline.value + 1..];
        var done := TakeCommand(cmd);
        if !done {
          return false;
        }
      }
      var remainder := cmdbuf;
      cmdbuf := [];
      ok := RelayData(remainder);
    }

    /** One chunk off the command stream, all of it consumed. Data comes only
        after the stream has been accepted, so there is somewhere to write the
        responses. */
    method HandleChunk(data: Bytes) returns (ok: bool)
      requires Sound(State()) && send
      modifies this`relayTx, this`lease, this`relayUdp, this`cmdbuf, this`output, this`forwarded, this`answers, processor
      ensures (if ok then Going(State()) else Failed(State()))
        == HandleData(processor.ip, processor.service, MAX_COMMAND_SIZE, old(State()), data)
      ensures ok ==> Sound(State()) && Idle(MAX_COMMAND_SIZE, State())
      ensures ok && lease.None? ==> 10 !in cmdbuf && |cmdbuf| < 4096
      ensures old(lease).Some? ==> lease == old(lease) && relayUdp == old(relayUdp)
    {
      if lease.Some? {
        ok := RelayData(data);
        return;
      }
      cmdbuf := cmdbuf + data;
      DrainSound(processor.ip, processor.service, MAX_COMMAND_SIZE, State());
      DrainIdle(processor.ip, processor.service, MAX_COMMAND_SIZE, State());
      ok := DrainBuffer();
    }

    /** One message off the relay, over the connection as it is; a message with
        content comes only under a lease, which is when there is a stream to
        write it to. A stream takes any message, a datagram only one that fits. */
    method HandleRelay(message: Option<Bytes>, live: bool, link: Link) returns (ok: bool)
      requires Sound(State())
      requires message.Some? && message.value != [] ==> lease.Some?
      modifies this`output
      ensures ok == GoesOn(OnRelay(message, if lease.Some? then Some(live) else None, relayUdp), Content(message), link)
      ensures ok <==>
        message.Some? &&
        if message.value == [] then lease.None? || live
        else link.up && (relayUdp ==> |message.value| <= link.room)
      ensures output == old(output) +
        if !ok || message.value == [] then []
        else if relayUdp then [Datagram(message.value)] else [Stream(message.value)]
    {
      if message.None? {
        return false;
      }
      var data := message.value;
      if |data| == 0 {
        if lease.Some? && !live {
          return false;
        }
        return true;
      }
      if !link.up {
        return false;
      }
      if relayUdp {
        if |data| > link.room {
          return false;
        }
        output := output + [Datagram(data)];
      } else {
        output := output + [Stream(data)];
      }
      return true;
    }

    /** One datagram from the client; `taken` is the lease's own answer. */
    method HandleDatagram(data: Bytes, taken: bool) returns (ok: bool)
      modifies this`datagrams
      ensures var action := OnDatagram(lease.Some?, relayUdp);
        ok == (action.Drop? || (action.Forward? && taken))
      ensures ok <==> lease.None? || (relayUdp && taken)
      ensures datagrams == old(datagrams) + if lease.Some? && relayUdp && taken then [data] else []
    {
      if lease.Some? {
        if !relayUdp {
          return false;
        }
        if taken {
          datagrams := datagrams + [data];
        }
        return taken;
      }
      return true;
    }
  }
}
