/** What becomes of the raw byte stream of a WebTransport client over a whole
    run of the proxy, however it is cut into chunks and whatever else happens
    in between: first lines, each run as a command, and once one of them has
    made a lease, data for that lease. */
module ProxyStreams {
  import opened Wrappers
  import opened BigEndian
  import opened Sequences
  import opened Commands
  import opened Proxy
  import opened ProxyInvariant
  import opened ProxyRuns
  import opened ProxySafety
  import opened ProxyHistory
  import opened ProxyTasks
  import opened ProxyTraffic
  import ConnectProxy

  /** The bytes that a step reads off the stream of session `sid`. */
  function BytesBy(s: State, step: Step, sid: SessionId): Bytes {
    match step
    case Buffer(i, data) => if i == sid then data else []
    case Data(i, StreamChunk, raw) => if i == sid && BufOf(s, sid) == [] then raw else []
    case _ => []
  }

  /** The line that it runs as a command. */
  function LineBy(s: State, step: Step, sid: SessionId): seq<Bytes> {
    match step
    case Command(i, raw, _) =>
      if i == sid && sid in s.clients && s.clients[sid].transport == OverWebTransport then [raw] else []
    case _ => []
  }

  /** The message that it has for the lease: a chunk, or what came in the same
      chunk as the command that made the lease. */
  function MessageBy(step: Step, sid: SessionId): seq<Bytes> {
    match step
    case Data(i, StreamChunk, raw) => if i == sid then [raw] else []
    case _ => []
  }

  function DataBy(step: Step, sid: SessionId): (data: Bytes)
    ensures MessageBy(step, sid) == if step.Data? && step.via.StreamChunk? && step.sid == sid then [data] else []
    ensures MessageBy(step, sid) == [] ==> data == []
  {
    match step
    case Data(i, StreamChunk, raw) => if i == sid then raw else []
    case _ => []
  }

  /** The bytes of a run of lines, each with its newline. */
  function Joined(lines: seq<Bytes>): Bytes {
    if lines == [] then [] else Joined(lines[..|lines| - 1]) + lines[|lines| - 1] + [10]
  }

  /** Nothing is lost between the buffer before and the buffer after. */
  ghost predicate Accounted(buf: Bytes, bytes: Bytes, line: Bytes, data: Bytes, buf': Bytes) {
    buf + bytes == line + data + buf'
  }

  ghost predicate Streams(s: State, step: Step, t: State, sid: SessionId) {
    && Accounted(
         BufOf(s, sid), BytesBy(s, step, sid), Joined(LineBy(s, step, sid)), DataBy(step, sid), BufOf(t, sid))
    && (forall line | line in LineBy(s, step, sid) :: 10 !in line)
    && (LineBy(s, step, sid) == [] || MessageBy(step, sid) == [])
  }

  lemma JoinedOne(line: Bytes)
    ensures Joined([line]) == line + [10]
  {
    assert [line][..0] == [];
    assert [] + line + [10] == line + [10];
  }

  lemma LineOff(buf: Bytes, line: Bytes)
    requires |line| < |buf| && line == buf[..|line|] && buf[|line|] == 10
    ensures Accounted(buf, [], Joined([line]), [], buf[|line| + 1..])
  {
    JoinedOne(line);
    assert buf == line + [10] + buf[|line| + 1..];
  }

  lemma BytesOn(buf: Bytes, bytes: Bytes)
    ensures Accounted(buf, bytes, [], [], buf + bytes)
    ensures Accounted(buf, [], [], [], buf)
    ensures Accounted([], bytes, [], bytes, []) && Accounted(buf, [], [], buf, [])
  {
    assert [] + [] + (buf + bytes) == buf + bytes;
  }

  lemma CommandStreams(env: Env, s: State, i: SessionId, raw: Bytes, choice: Choice, sid: SessionId)
    requires Enabled(env, s, Command(i, raw, choice))
    ensures Streams(s, Command(i, raw, choice), s.(bufs := LineTaken(s, i, raw)), sid)
  {
    BytesOn(BufOf(s, sid), []);
    if LineBy(s, Command(i, raw, choice), sid) != [] {
      LineOff(BufOf(s, sid), raw);
    }
  }

  lemma DataStreams(env: Env, s: State, i: SessionId, via: Via, raw: Bytes, sid: SessionId)
    requires Enabled(env, s, Data(i, via, raw))
    ensures Streams(s, Data(i, via, raw), s.(bufs := if via.StreamChunk? then s.bufs[i := []] else s.bufs), sid)
  {
    BytesOn(BufOf(s, sid), raw);
  }

  lemma RestStreams(s: State, step: Step, t: State, sid: SessionId)
    requires LineBy(s, step, sid) == [] && DataBy(step, sid) == []
    requires BufOf(t, sid) == BufOf(s, sid) + BytesBy(s, step, sid)
    ensures Streams(s, step, t, sid)
  {
    BytesOn(BufOf(s, sid), BytesBy(s, step, sid));
  }

  lemma OtherStreams(env: Env, s: State, step: Step, sid: SessionId)
    requires Enabled(env, s, step) && !step.Command? && !step.Data?
    ensures Streams(s, step, Next(env, s, step), sid)
  {
    assert BufOf(s, sid) + [] == BufOf(s, sid);
    RestStreams(s, step, Next(env, s, step), sid);
  }

  /** The buffers after a step depend on nothing else that it does. */
  lemma SameStreams(s: State, step: Step, t: State, u: State, sid: SessionId)
    requires Streams(s, step, t, sid) && u.bufs == t.bufs
    ensures Streams(s, step, u, sid)
  {
  }

  lemma StepStreams(env: Env, s: State, step: Step, sid: SessionId)
    requires Enabled(env, s, step)
    ensures Streams(s, step, Next(env, s, step), sid)
  {
    if step.Command? {
      CommandStreams(env, s, step.sid, step.raw, step.choice, sid);
      SameStreams(s, step, s.(bufs := LineTaken(s, step.sid, step.raw)), Next(env, s, step), sid);
    } else if step.Data? {
      DataStreams(env, s, step.sid, step.via, step.raw, sid);
      SameStreams(s, step, s.(bufs := if step.via.StreamChunk? then s.bufs[step.sid := []] else s.bufs),
        Next(env, s, step), sid);
    } else {
      OtherStreams(env, s, step, sid);
    }
  }

  /** Commands come only before the lease, data only with it. */
  ghost predicate InTurn(s: State, step: Step, sid: SessionId) {
    && (LineBy(s, step, sid) != [] ==>
          sid in s.clients && s.clients[sid].phase.Serving? && s.clients[sid].lease.None?)
    && (MessageBy(step, sid) != [] ==> sid in s.clients && s.clients[sid].lease.Some?)
  }

  lemma StepInTurn(env: Env, s: State, step: Step, sid: SessionId)
    requires Enabled(env, s, step)
    ensures InTurn(s, step, sid)
  {
  }

  // ----- whole runs -----

  /** All bytes read off the stream of `sid` in the first `n` steps of a run. */
  function AllBytes(trace: seq<State>, steps: seq<Step>, n: nat, sid: SessionId): Bytes
    requires n <= |steps| && |trace| == |steps| + 1
  {
    if n == 0 then [] else AllBytes(trace, steps, n - 1, sid) + BytesBy(trace[n - 1], steps[n - 1], sid)
  }

  function AllLines(trace: seq<State>, steps: seq<Step>, n: nat, sid: SessionId): seq<Bytes>
    requires n <= |steps| && |trace| == |steps| + 1
  {
    if n == 0 then [] else AllLines(trace, steps, n - 1, sid) + LineBy(trace[n - 1], steps[n - 1], sid)
  }

  function AllMessages(steps: seq<Step>, n: nat, sid: SessionId): seq<Bytes>
    requires n <= |steps|
  {
    if n == 0 then [] else AllMessages(steps, n - 1, sid) + MessageBy(steps[n - 1], sid)
  }

  function AllData(steps: seq<Step>, n: nat, sid: SessionId): Bytes
    requires n <= |steps|
  {
    Concat(AllMessages(steps, n, sid))
  }

  lemma DataMore(steps: seq<Step>, n: nat, sid: SessionId)
    requires n < |steps|
    ensures AllData(steps, n + 1, sid) == AllData(steps, n, sid) + DataBy(steps[n], sid)
  {
    var messages, more := AllMessages(steps, n, sid), MessageBy(steps[n], sid);
    if more == [] {
      assert messages + more == messages;
    } else {
      ConcatAppend(messages, DataBy(steps[n], sid));
    }
  }

  ghost predicate PastCommands(s: State, sid: SessionId) {
    sid in s.clients && (s.clients[sid].lease.Some? || s.clients[sid].phase.Gone?)
  }

  /** The bytes read so far are the lines run as commands, then the data for
      the lease, then what is still in the buffer. */
  ghost predicate StreamParsed(trace: seq<State>, steps: seq<Step>, n: nat, sid: SessionId) {
    && n < |trace| == |steps| + 1
    && AllBytes(trace, steps, n, sid)
       == Joined(AllLines(trace, steps, n, sid)) + AllData(steps, n, sid) + BufOf(trace[n], sid)
    && (forall line | line in AllLines(trace, steps, n, sid) :: 10 !in line)
    && (AllMessages(steps, n, sid) != [] ==> PastCommands(trace[n], sid))
  }

  lemma JoinedMore(lines: seq<Bytes>, more: seq<Bytes>)
    requires |more| <= 1
    ensures Joined(lines + more) == Joined(lines) + Joined(more)
  {
    if more == [] {
      assert lines + more == lines && Joined(lines) + [] == Joined(lines);
    } else {
      JoinedOne(more[0]);
      assert more == [more[0]] && (lines + more)[..|lines|] == lines;
      assert Joined(lines) + more[0] + [10] == Joined(lines) + (more[0] + [10]);
    }
  }

  /** Bytes keep their place: new lines come before there is any data. */
  lemma ParsedMore(
    all: Bytes, lines: Bytes, data: Bytes, buf: Bytes, bytes: Bytes, line: Bytes, datum: Bytes, buf': Bytes)
    requires all == lines + data + buf && Accounted(buf, bytes, line, datum, buf')
    requires line == [] || data == []
    ensures all + bytes == lines + line + (data + datum) + buf'
  {
    Regroup(lines + data, buf, bytes);
    if line == [] {
      assert line + datum == datum && lines + line == lines;
      Regroup(lines, data, datum);
      Regroup(lines + data, datum, buf');
    } else {
      assert lines + data == lines && data + datum == datum;
      Regroup(lines, line, datum);
      Regroup(lines, line + datum, buf');
    }
  }

  lemma Regroup(a: Bytes, b: Bytes, c: Bytes)
    ensures a + b + c == a + (b + c)
  {
  }

  lemma ParsedLines(
    all: Bytes, lines: seq<Bytes>, data: Bytes, buf: Bytes,
    bytes: Bytes, line: seq<Bytes>, datum: Bytes, buf': Bytes)
    requires all == Joined(lines) + data + buf && Accounted(buf, bytes, Joined(line), datum, buf')
    requires |line| <= 1 && (line == [] || data == [])
    ensures all + bytes == Joined(lines + line) + (data + datum) + buf'
  {
    JoinedMore(lines, line);
    ParsedMore(all, Joined(lines), data, buf, bytes, Joined(line), datum, buf');
  }

  lemma PastStays(s: State, step: Step, t: State, sid: SessionId, messages: seq<Bytes>)
    requires InTurn(s, step, sid) && StandingKept(s, t, sid) && (messages != [] ==> PastCommands(s, sid))
    ensures messages + MessageBy(step, sid) != [] ==> PastCommands(t, sid)
    ensures LineBy(s, step, sid) == [] || messages == []
    ensures |LineBy(s, step, sid)| <= 1
  {
  }

  lemma StreamEdge(trace: seq<State>, steps: seq<Step>, n: nat, sid: SessionId)
    requires n < |steps| && StreamParsed(trace, steps, n, sid)
    requires Streams(trace[n], steps[n], trace[n + 1], sid) && InTurn(trace[n], steps[n], sid)
    requires StandingKept(trace[n], trace[n + 1], sid)
    ensures StreamParsed(trace, steps, n + 1, sid)
  {
    var s, t, step := trace[n], trace[n + 1], steps[n];
    PastStays(s, step, t, sid, AllMessages(steps, n, sid));
    DataMore(steps, n, sid);
    ParsedLines(AllBytes(trace, steps, n, sid), AllLines(trace, steps, n, sid), AllData(steps, n, sid), BufOf(s, sid),
      BytesBy(s, step, sid), LineBy(s, step, sid), DataBy(step, sid), BufOf(t, sid));
  }

  lemma StreamStarts(trace: seq<State>, steps: seq<Step>, sid: SessionId)
    requires |trace| == |steps| + 1 && trace[0] == INITIAL
    ensures StreamParsed(trace, steps, 0, sid)
  {
  }

  lemma StreamsEdge(env: Env, trace: seq<State>, steps: seq<Step>, n: nat, sid: SessionId)
    requires IsRun(env, trace, steps) && n < |steps|
    ensures Streams(trace[n], steps[n], trace[n + 1], sid) && InTurn(trace[n], steps[n], sid)
  {
    assert StepAt(env, trace, steps, n);
    StepStreams(env, trace[n], steps[n], sid);
    StepInTurn(env, trace[n], steps[n], sid);
  }

  /** Over a whole run every byte of a client's stream is accounted for, in
      order: complete lines first, one command each, then data for the lease
      that one of them made, then what has not been processed yet. */
  lemma StreamIsParsed(env: Env, trace: seq<State>, steps: seq<Step>, n: nat, sid: SessionId)
    requires IsRun(env, trace, steps) && n < |trace|
    ensures StreamParsed(trace, steps, n, sid)
  {
    StreamStarts(trace, steps, sid);
    forall k | 0 <= k < n && StreamParsed(trace, steps, k, sid) ensures StreamParsed(trace, steps, k + 1, sid) {
      StreamsEdge(env, trace, steps, k, sid);
      StandingEdge(env, trace, steps, k, sid);
      StreamEdge(trace, steps, k, sid);
    }
    Along(n, (k: nat) => StreamParsed(trace, steps, k, sid));
  }

  // ----- from the stream to a service -----

  /** A session that reads its relay under a link to a service. */
  ghost predicate StreamLink(s: State, sid: SessionId, l: LeaseId) {
    && sid in s.clients && Listening(s.clients[sid]) && s.clients[sid].transport == OverWebTransport
    && s.clients[sid].lease == Some(l) && l in s.leases && s.leases[l].key.None?
  }

  /** Before the step the lease did not exist and the session had none. */
  ghost predicate NoLeaseYet(s: State, sid: SessionId, l: LeaseId) {
    l !in s.tasks && !PastCommands(s, sid)
  }

  /** A session listens and keeps its transport from the start, and the lease it
      has is the one it had, or a new one. */
  ghost predicate LeaseIsOldOrNew(s: State, t: State, sid: SessionId, l: LeaseId) {
    sid in t.clients && Listening(t.clients[sid]) && t.clients[sid].lease == Some(l) ==>
      || NoLeaseYet(s, sid, l)
      || (sid in s.clients && Listening(s.clients[sid]) && s.clients[sid].lease == Some(l)
          && s.clients[sid].transport == t.clients[sid].transport)
  }

  lemma ServeLeases(env: Env, s: State, i: SessionId, call: Call, choice: Choice, l: LeaseId)
    requires i in s.clients && s.clients[i].phase.Serving? && s.clients[i].lease.None? && choice.lease !in s.tasks
    ensures LeaseIsOldOrNew(s, Serve(env, s, i, call, choice), i, l)
  {
  }

  lemma ServeAddsNobody(env: Env, s: State, i: SessionId, call: Call, choice: Choice)
    requires i in s.clients
    ensures Serve(env, s, i, call, choice).clients.Keys == s.clients.Keys
  {
  }

  lemma CommandLeases(env: Env, s: State, i: SessionId, raw: Bytes, choice: Choice, sid: SessionId, l: LeaseId)
    requires i in s.clients && s.clients[i].phase.Serving? && choice.lease !in s.tasks
    ensures LeaseIsOldOrNew(s, RunCommand(env, s, i, raw, choice), sid, l)
  {
    if s.clients[i].lease.None? {
      match PlanFor(env, s.clients[i], i, raw)
      case Ask(call) =>
        ServeAddsNobody(env, s, i, call, choice);
        if i == sid {
          ServeLeases(env, s, i, call, choice, l);
        } else if sid in s.clients {
          OtherServeStays(env, s, i, call, choice, sid);
        }
      case _ =>
    }
  }

  lemma FinishLeases(env: Env, s: State, i: SessionId, j: LeaseId, answered: bool, sid: SessionId, l: LeaseId)
    requires i in s.clients && s.clients[i].phase.Binding? && ClientSound(s.clients[i]) && j !in s.tasks
    ensures LeaseIsOldOrNew(s, FinishBind(env, s, i, j, answered), sid, l)
  {
  }

  lemma DataLeases(s: State, i: SessionId, via: Via, raw: Bytes, sid: SessionId, l: LeaseId)
    requires i in s.clients && s.clients[i].phase.Serving?
    ensures LeaseIsOldOrNew(s, HandData(s, i, via, raw), sid, l)
  {
  }

  lemma TurnLeases(env: Env, s: State, step: Step, sid: SessionId, l: LeaseId)
    requires Enabled(env, s, step) && TaskTurn(step)
    ensures LeaseIsOldOrNew(s, Next(env, s, step), sid, l)
  {
  }

  lemma OtherLeases(env: Env, s: State, step: Step, sid: SessionId, l: LeaseId)
    requires Enabled(env, s, step) && !TaskTurn(step) && !step.Command? && !step.Data? && !step.BindDone?
    ensures LeaseIsOldOrNew(s, Next(env, s, step), sid, l)
  {
  }

  lemma StepLeases(env: Env, s: State, step: Step, sid: SessionId, l: LeaseId)
    requires TokensSound(s) && Enabled(env, s, step)
    ensures LeaseIsOldOrNew(s, Next(env, s, step), sid, l)
  {
    if TaskTurn(step) {
      TurnLeases(env, s, step, sid, l);
    } else if step.Command? {
      CommandLeases(env, s, step.sid, step.raw, step.choice, sid, l);
    } else if step.Data? {
      DataLeases(s, step.sid, step.via, step.raw, sid, l);
    } else if step.BindDone? {
      assert ClientSound(s.clients[step.sid]);
      FinishLeases(env, s, step.sid, step.lease, step.answered, sid, l);
    } else {
      OtherLeases(env, s, step, sid, l);
    }
  }

  /** What a step hands to a service link is the message it has for it. */
  lemma DataIsHanded(env: Env, s: State, step: Step, sid: SessionId, l: LeaseId)
    requires TokensSound(s) && Enabled(env, s, step) && StreamLink(s, sid, l)
    requires step.Data? ==> StaysListening(HandData(s, step.sid, step.via, step.raw), sid)
    ensures HandedBy(s, step, l) == MessageBy(step, sid)
  {
    assert HolderSound(s, sid);
    if step.Data? {
      assert HolderSound(s, step.sid);
    }
  }

  ghost predicate StaysListening(t: State, sid: SessionId) {
    sid in t.clients && Listening(t.clients[sid])
  }

  lemma HandedNeedsTask(s: State, step: Step, l: LeaseId)
    requires l !in s.tasks
    ensures HandedBy(s, step, l) == []
  {
  }

  lemma LinkEdge(env: Env, trace: seq<State>, steps: seq<Step>, n: nat, sid: SessionId, l: LeaseId)
    requires IsRun(env, trace, steps) && n < |steps| && StreamLink(trace[n + 1], sid, l)
    ensures NoLeaseYet(trace[n], sid, l)
         || (StreamLink(trace[n], sid, l) && HandedBy(trace[n], steps[n], l) == MessageBy(steps[n], sid))
  {
    var s, step := trace[n], steps[n];
    RunKeeps(env, trace, steps, n);
    assert StepAt(env, trace, steps, n);
    StepLeases(env, s, step, sid, l);
    if !NoLeaseYet(s, sid, l) {
      LeaseEdge(env, trace, steps, n, l);
      LeaseOfLink(s, sid, l);
      DataIsHanded(env, s, step, sid, l);
    }
  }

  lemma LeaseOfLink(s: State, sid: SessionId, l: LeaseId)
    requires TokensSound(s) && TasksSound(s) && sid in s.clients && s.clients[sid].lease == Some(l)
    ensures l in s.leases && l in s.tasks
  {
    assert HolderSound(s, sid) && LeaseServed(s, l);
  }

  /** What has been handed to a service link is the data part of the stream,
      one message for each chunk of it. */
  ghost predicate HandedMatches(trace: seq<State>, steps: seq<Step>, n: nat, sid: SessionId, l: LeaseId) {
    && n < |trace| == |steps| + 1
    && (StreamLink(trace[n], sid, l) ==> Handed(trace, steps, n, l) == AllMessages(steps, n, sid))
    && (l !in trace[n].tasks ==> Handed(trace, steps, n, l) == [])
    && (!PastCommands(trace[n], sid) ==> AllMessages(steps, n, sid) == [])
  }

  lemma HandedEdge(trace: seq<State>, steps: seq<Step>, n: nat, sid: SessionId, l: LeaseId)
    requires n < |steps| && HandedMatches(trace, steps, n, sid, l)
    requires InTurn(trace[n], steps[n], sid) && StandingKept(trace[n], trace[n + 1], sid)
    requires TaskKept(trace[n], trace[n + 1], l)
    requires StreamLink(trace[n + 1], sid, l) ==>
      || NoLeaseYet(trace[n], sid, l)
      || (StreamLink(trace[n], sid, l) && HandedBy(trace[n], steps[n], l) == MessageBy(steps[n], sid))
    ensures HandedMatches(trace, steps, n + 1, sid, l)
  {
    var s, step := trace[n], steps[n];
    if l !in s.tasks {
      HandedNeedsTask(s, step, l);
    }
  }

  lemma HandedIsStreamData(
    env: Env, trace: seq<State>, steps: seq<Step>, n: nat, sid: SessionId, l: LeaseId)
    requires IsRun(env, trace, steps) && n < |trace|
    ensures HandedMatches(trace, steps, n, sid, l)
  {
    assert HandedMatches(trace, steps, 0, sid, l);
    forall k | 0 <= k < n && HandedMatches(trace, steps, k, sid, l)
      ensures HandedMatches(trace, steps, k + 1, sid, l)
    {
      StreamsEdge(env, trace, steps, k, sid);
      StandingEdge(env, trace, steps, k, sid);
      TaskEdge(env, trace, steps, k, l);
      if StreamLink(trace[k + 1], sid, l) {
        LinkEdge(env, trace, steps, k, sid, l);
      }
      HandedEdge(trace, steps, k, sid, l);
    }
    Along(n, (k: nat) => HandedMatches(trace, steps, k, sid, l));
  }

  /** Nothing has gone upstream but the bytes behind an acceptable header in
      what follows the lines. */
  ghost predicate UpstreamOf(hosts: set<string>, lines: Bytes, all: Bytes, upstream: Bytes) {
    && lines <= all
    && match ConnectProxy.Judge(hosts, all[|lines|..])
       case Accepted(_, body) => upstream <= body
       case _ => upstream == []
  }

  lemma UpstreamBehindLines(hosts: set<string>, lines: Bytes, data: Bytes, buf: Bytes, all: Bytes, upstream: Bytes)
    requires all == lines + data + buf
    requires match ConnectProxy.Judge(hosts, data)
      case Accepted(_, body) => upstream <= body
      case _ => upstream == []
    ensures UpstreamOf(hosts, lines, all, upstream)
  {
    assert all[|lines|..] == data + buf;
    ConnectProxy.JudgeAppend(hosts, data, buf);
  }

  /** From the raw stream to the remote end: what a CONNECT task has sent
      upstream for a WebTransport client is a prefix of what follows the first
      acceptable header behind the command lines of the bytes the client sent,
      and nothing if there is no such header; however those were cut. */
  lemma UpstreamIsRawStream(env: Env, trace: seq<State>, steps: seq<Step>, n: nat, sid: SessionId, l: LeaseId)
    requires IsRun(env, trace, steps) && n < |trace| && StreamLink(trace[n], sid, l)
    requires l in trace[n].tasks && trace[n].tasks[l].job.Connecting?
    ensures UpstreamOf(env.hosts, Joined(AllLines(trace, steps, n, sid)), AllBytes(trace, steps, n, sid),
      trace[n].tasks[l].job.h.t.upstream)
  {
    StreamIsParsed(env, trace, steps, n, sid);
    HandedIsStreamData(env, trace, steps, n, sid, l);
    UpstreamIsClientsOwn(env, trace, steps, n, l);
    UpstreamBehindLines(env.hosts, Joined(AllLines(trace, steps, n, sid)), AllData(steps, n, sid),
      BufOf(trace[n], sid), AllBytes(trace, steps, n, sid), trace[n].tasks[l].job.h.t.upstream);
  }

  /** A resolver session answers chunk for chunk: message number j on the relay
      of a WebTransport session linked to the resolver is the answer to chunk
      number j of the data part of its stream, and nothing else. */
  lemma ChunksAreQueries(
    env: Env, trace: seq<State>, steps: seq<Step>, n: nat, sid: SessionId, l: LeaseId, j: nat)
    requires IsRun(env, trace, steps) && n < |trace| && StreamLink(trace[n], sid, l)
    requires l in trace[n].tasks && trace[n].tasks[l].job.Resolving? && j < |Inbox(trace[n], sid)|
    ensures j < |AllMessages(steps, n, sid)|
    ensures exists found :: AnswersQuery(AllMessages(steps, n, sid)[j], found, Inbox(trace[n], sid)[j])
  {
    HandedIsStreamData(env, trace, steps, n, sid, l);
    AnswersAreToClientsOwn(env, trace, steps, n, sid, l, j);
  }
}
