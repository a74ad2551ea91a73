/** Whose bytes a task works on: over whole runs of the proxy, what the tasks
    read and send out is what their own clients have sent. */
module ProxyTraffic {
  import opened Wrappers
  import opened BigEndian
  import opened Sequences
  import opened Code
  import opened Commands
  import opened Session
  import opened Proxy
  import opened ProxyInvariant
  import opened ProxyRuns
  import opened ProxySafety
  import opened ProxyHistory
  import opened ProxyRelays
  import opened ProxyTasks
  import ConnectProxy
  import DnsProxy
  import Network
  import Translate

  // ----- the services -----

  /** Everything that has been handed to a service task. */
  function GivenOf(s: State, l: LeaseId): seq<Bytes> {
    if l !in s.tasks then []
    else
      match s.tasks[l].job
      case Connecting(_, given, _) => given
      case Resolving(asked, _) => asked
      case Translating(_, _) => []
  }

  /** The client's data that a step hands to lease `l`. */
  function HandedBy(s: State, step: Step, l: LeaseId): seq<Bytes> {
    match step
    case Data(sid, via, raw) =>
      if sid in s.clients && s.clients[sid].lease == Some(l)
        && OnData(s.clients[sid], via, raw) == Forward && Send(s, l, raw).Some?
      then [raw] else []
    case _ => []
  }

  ghost predicate NotTranslating(s: State, l: LeaseId) {
    l in s.tasks ==> !s.tasks[l].job.Translating?
  }

  ghost predicate Gives(s: State, step: Step, t: State, l: LeaseId) {
    NotTranslating(t, l) ==> NotTranslating(s, l) && GivenOf(t, l) == GivenOf(s, l) + HandedBy(s, step, l)
  }

  lemma SendGives(s: State, l': LeaseId, raw: Bytes, l: LeaseId)
    requires TasksSound(s) && Send(s, l', raw).Some?
    ensures var t := Send(s, l', raw).value;
      NotTranslating(t, l) ==>
        NotTranslating(s, l) && GivenOf(t, l) == GivenOf(s, l) + if l == l' then [raw] else []
  {
    assert LeaseServed(s, l');
  }

  lemma DataGives(env: Env, s: State, sid: SessionId, via: Via, raw: Bytes, l: LeaseId)
    requires TasksSound(s) && Enabled(env, s, Data(sid, via, raw))
    ensures Gives(s, Data(sid, via, raw), HandData(s, sid, via, raw), l)
  {
    var c := s.clients[sid];
    if c.lease.Some? && OnData(c, via, raw) == Forward && Send(s, c.lease.value, raw).Some? {
      SendGives(s, c.lease.value, raw, l);
    }
  }

  lemma ServeGives(env: Env, s: State, i: SessionId, call: Call, choice: Choice, l: LeaseId)
    requires i in s.clients && choice.lease !in s.tasks
    ensures var t := Serve(env, s, i, call, choice);
      NotTranslating(t, l) ==> NotTranslating(s, l) && GivenOf(t, l) == GivenOf(s, l)
  {
  }

  lemma CommandGives(env: Env, s: State, sid: SessionId, raw: Bytes, choice: Choice, l: LeaseId)
    requires sid in s.clients && choice.lease !in s.tasks
    ensures Gives(s, Command(sid, raw, choice), RunCommand(env, s, sid, raw, choice), l)
  {
    assert GivenOf(s, l) + [] == GivenOf(s, l);
    match PlanFor(env, s.clients[sid], sid, raw)
    case Ask(call) => ServeGives(env, s, sid, call, choice, l);
    case _ =>
  }

  lemma TurnGives(env: Env, s: State, step: Step, l: LeaseId)
    requires Enabled(env, s, step)
    requires TaskTurn(step)
    ensures Gives(s, step, Next(env, s, step), l)
  {
  }

  lemma OtherGives(env: Env, s: State, step: Step, l: LeaseId)
    requires Enabled(env, s, step) && !TaskTurn(step) && !step.Command? && !step.Data?
    ensures Gives(s, step, Next(env, s, step), l)
  {
    assert GivenOf(s, l) + [] == GivenOf(s, l);
  }

  lemma StepGives(env: Env, s: State, step: Step, l: LeaseId)
    requires TasksSound(s) && Enabled(env, s, step)
    ensures Gives(s, step, Next(env, s, step), l)
  {
    if TaskTurn(step) {
      TurnGives(env, s, step, l);
    } else if step.Command? {
      CommandGives(env, s, step.sid, step.raw, step.choice, l);
    } else if step.Data? {
      DataGives(env, s, step.sid, step.via, step.raw, l);
    } else {
      OtherGives(env, s, step, l);
    }
  }

  lemma GivesEdge(env: Env, trace: seq<State>, steps: seq<Step>, n: nat, l: LeaseId)
    requires IsRun(env, trace, steps) && n < |steps|
    ensures Gives(trace[n], steps[n], trace[n + 1], l)
  {
    RunKeeps(env, trace, steps, n);
    assert StepAt(env, trace, steps, n);
    StepGives(env, trace[n], steps[n], l);
  }

  /** All that clients have handed to lease `l` in the first `n` steps of a run. */
  function Handed(trace: seq<State>, steps: seq<Step>, n: nat, l: LeaseId): seq<Bytes>
    requires n <= |steps| && |trace| == |steps| + 1
  {
    if n == 0 then [] else Handed(trace, steps, n - 1, l) + HandedBy(trace[n - 1], steps[n - 1], l)
  }

  /** What a service task has been given is what was sent on its lease, whole
      and in order. */
  lemma {:induction false} GivenIsHanded(env: Env, trace: seq<State>, steps: seq<Step>, n: nat, l: LeaseId)
    requires IsRun(env, trace, steps) && n < |trace| && NotTranslating(trace[n], l)
    ensures GivenOf(trace[n], l) == Handed(trace, steps, n, l)
  {
    if n > 0 {
      GivesEdge(env, trace, steps, n - 1, l);
      GivenIsHanded(env, trace, steps, n - 1, l);
    }
  }

  /** End to end: what a CONNECT task has sent upstream is a prefix of what
      follows the first acceptable header in all that was sent on its lease. */
  lemma UpstreamIsClientsOwn(env: Env, trace: seq<State>, steps: seq<Step>, n: nat, l: LeaseId)
    requires IsRun(env, trace, steps) && n < |trace|
    requires l in trace[n].tasks && trace[n].tasks[l].job.Connecting?
    ensures match ConnectProxy.Judge(env.hosts, Concat(Handed(trace, steps, n, l)))
      case Accepted(_, body) => trace[n].tasks[l].job.h.t.upstream <= body
      case _ => trace[n].tasks[l].job.h.t.upstream == []
  {
    GivenIsHanded(env, trace, steps, n, l);
    ReachedByRun(env, trace, steps, n);
    UpstreamIsBody(env, trace[n], l);
  }

  /** End to end: the relay of a resolver session holds an answer to each of
      the first queries sent on its lease, in their order: the good choice
      among what some lookup has found, and an empty list for a bad query. */
  lemma AnswersAreToClientsOwn(
    env: Env, trace: seq<State>, steps: seq<Step>, n: nat, sid: SessionId, l: LeaseId, j: nat)
    requires IsRun(env, trace, steps) && n < |trace|
    requires sid in trace[n].clients && Listening(trace[n].clients[sid]) && trace[n].clients[sid].lease == Some(l)
    requires l in trace[n].tasks && trace[n].tasks[l].job.Resolving?
    requires j < |Inbox(trace[n], sid)|
    ensures j < |Handed(trace, steps, n, l)|
    ensures exists found :: AnswersQuery(Handed(trace, steps, n, l)[j], found, Inbox(trace[n], sid)[j])
  {
    GivenIsHanded(env, trace, steps, n, l);
    ReachedByRun(env, trace, steps, n);
    ResolveEndToEnd(env, trace[n], sid, l);
    var answered := trace[n].tasks[l].job.answered;
    assert Inbox(trace[n], sid)[j] == DnsProxy.Answers(answered)[j];
    AnswerAnswers(Handed(trace, steps, n, l)[j], answered[j].1);
  }

  // ----- the open internet -----

  /** What waits for a translation task to send out. */
  function WaitingOf(s: State, l: LeaseId): seq<(SocketAddr, Bytes)> {
    if l in s.tasks && s.tasks[l].job.Translating? then s.tasks[l].job.outgoing else []
  }

  /** What it has sent out. */
  function SentOf(s: State, l: LeaseId): seq<(SocketAddr, Bytes)> {
    if l in s.tasks && s.tasks[l].job.Translating? then
      var wire := s.tasks[l].job.t.wire;
      seq(|wire|, i requires 0 <= i < |wire| => (wire[i].1, wire[i].2))
    else []
  }

  /** The datagram for the open internet in data sent on lease `l`: a frame of
      the client's, with its payload, for the peer it names. */
  function OutwardOf(s: State, l: LeaseId, raw: Bytes): seq<(SocketAddr, Bytes)> {
    if l !in s.leases || s.leases[l].key.None? then []
    else
      match Network.DispatchFrame(s.leases[l].key.value, raw)
      case Outward(peer, data) => [(peer, data)]
      case _ => []
  }

  function QueuedBy(s: State, step: Step, l: LeaseId): seq<(SocketAddr, Bytes)> {
    var handed := HandedBy(s, step, l);
    if handed == [] then [] else OutwardOf(s, l, handed[0])
  }

  /** The datagram that a step takes off the queue of lease `l`. */
  function TakenBy(step: Step, l: LeaseId): seq<(SocketAddr, Bytes)> {
    match step
    case TranslateTurn(task, Outgoing(peer, data, _, _)) => if task == l then [(peer, data)] else []
    case _ => []
  }

  /** The socket of a family that the task of lease `l` holds. */
  function SocketOf(s: State, l: LeaseId, v4: bool): Option<Translate.SocketId> {
    if l in s.tasks && s.tasks[l].job.Translating? then if v4 then s.tasks[l].job.t.v4 else s.tasks[l].job.t.v6
    else None
  }

  /** The datagram that a step sends out for lease `l`: the one it takes up, if
      the system takes it and there is a socket of its family, held already or
      opened now. */
  function SentBy(s: State, step: Step, l: LeaseId): seq<(SocketAddr, Bytes)> {
    match step
    case TranslateTurn(task, Outgoing(peer, data, opens, sends)) =>
      if task == l && sends && (SocketOf(s, l, peer.ip.V4?).Some? || opens.Some?) then [(peer, data)] else []
    case _ => []
  }

  /** One step of a queue: `queued` joins at the back, `taken` goes off the
      front, and `out`, which is that or nothing, is sent. */
  ghost predicate QueueMoves<T>(
    waiting: seq<T>, queued: seq<T>, taken: seq<T>, waiting': seq<T>, sent: seq<T>, out: seq<T>, sent': seq<T>)
  {
    && waiting + queued == taken + waiting'
    && sent' == sent + out
    && (out == [] || out == taken)
    && |taken| <= 1
  }

  ghost predicate Moves(s: State, step: Step, t: State, l: LeaseId) {
    QueueMoves(WaitingOf(s, l), QueuedBy(s, step, l), TakenBy(step, l), WaitingOf(t, l),
      SentOf(s, l), SentBy(s, step, l), SentOf(t, l))
  }

  lemma NothingTaken<T>(waiting: seq<T>, queued: seq<T>, sent: seq<T>)
    ensures QueueMoves(waiting, queued, [], waiting + queued, sent, [], sent)
  {
    assert [] + (waiting + queued) == waiting + queued && sent + [] == sent;
  }

  lemma NothingMoves(s: State, step: Step, t: State, l: LeaseId)
    requires HandedBy(s, step, l) == [] && TakenBy(step, l) == []
    requires WaitingOf(t, l) == WaitingOf(s, l) && SentOf(t, l) == SentOf(s, l)
    ensures Moves(s, step, t, l)
  {
    NothingTaken(WaitingOf(s, l), [], SentOf(s, l));
    assert WaitingOf(s, l) + [] == WaitingOf(s, l);
  }

  lemma SendMoves(s: State, l': LeaseId, raw: Bytes, l: LeaseId)
    requires Send(s, l', raw).Some?
    ensures var t := Send(s, l', raw).value;
      && WaitingOf(t, l) == WaitingOf(s, l) + (if l == l' then OutwardOf(s, l, raw) else [])
      && SentOf(t, l) == SentOf(s, l)
  {
    assert WaitingOf(s, l) + [] == WaitingOf(s, l);
  }

  lemma DataMoves(env: Env, s: State, sid: SessionId, via: Via, raw: Bytes, l: LeaseId)
    requires Enabled(env, s, Data(sid, via, raw))
    ensures Moves(s, Data(sid, via, raw), HandData(s, sid, via, raw), l)
  {
    var c := s.clients[sid];
    if c.lease.Some? && OnData(c, via, raw) == Forward && Send(s, c.lease.value, raw).Some? {
      SendMoves(s, c.lease.value, raw, l);
      NothingTaken(WaitingOf(s, l), QueuedBy(s, Data(sid, via, raw), l), SentOf(s, l));
    } else {
      NothingMoves(s, Data(sid, via, raw), HandData(s, sid, via, raw), l);
    }
  }

  lemma TaskSends(s: State, l: LeaseId, e: Translate.Event)
    requires AtWork(s, l) && s.tasks[l].job.Translating? && s.tasks[l].job.t.running && e.Outgoing?
    ensures SentOf(TurnTranslate(s, l, e), l) == SentOf(s, l) + SentBy(s, TranslateTurn(l, e), l)
  {
    assert SentOf(s, l) + [] == SentOf(s, l);
  }

  lemma TranslateMoves(env: Env, s: State, j: LeaseId, e: Translate.Event, l: LeaseId)
    requires TasksSound(s) && Enabled(env, s, TranslateTurn(j, e))
    ensures Moves(s, TranslateTurn(j, e), TurnTranslate(s, j, e), l)
  {
    if e.Outgoing? && j == l {
      var waiting := WaitingOf(s, l);
      assert waiting + [] == waiting == [waiting[0]] + waiting[1..];
      assert TaskSound(s, l);
      TaskSends(s, l, e);
    } else {
      NothingMoves(s, TranslateTurn(j, e), TurnTranslate(s, j, e), l);
    }
  }

  lemma ServeMoves(env: Env, s: State, i: SessionId, call: Call, choice: Choice, l: LeaseId)
    requires i in s.clients && choice.lease !in s.tasks
    ensures var t := Serve(env, s, i, call, choice); WaitingOf(t, l) == WaitingOf(s, l) && SentOf(t, l) == SentOf(s, l)
  {
  }

  lemma CommandMoves(env: Env, s: State, sid: SessionId, raw: Bytes, choice: Choice, l: LeaseId)
    requires sid in s.clients && choice.lease !in s.tasks
    ensures Moves(s, Command(sid, raw, choice), RunCommand(env, s, sid, raw, choice), l)
  {
    match PlanFor(env, s.clients[sid], sid, raw)
    case Ask(call) =>
      ServeMoves(env, s, sid, call, choice, l);
      NothingMoves(s, Command(sid, raw, choice), RunCommand(env, s, sid, raw, choice), l);
    case _ => NothingMoves(s, Command(sid, raw, choice), RunCommand(env, s, sid, raw, choice), l);
  }

  lemma SessionMoves(env: Env, s: State, step: Step, l: LeaseId)
    requires Enabled(env, s, step) && !TaskTurn(step) && !step.Command? && !step.Data?
    ensures Moves(s, step, Next(env, s, step), l)
  {
    NothingMoves(s, step, Next(env, s, step), l);
  }

  lemma ServiceMoves(env: Env, s: State, step: Step, l: LeaseId)
    requires Enabled(env, s, step) && TaskTurn(step) && !step.TranslateTurn?
    ensures Moves(s, step, Next(env, s, step), l)
  {
    NothingMoves(s, step, Next(env, s, step), l);
  }

  lemma StepMoves(env: Env, s: State, step: Step, l: LeaseId)
    requires TasksSound(s) && Enabled(env, s, step)
    ensures Moves(s, step, Next(env, s, step), l)
  {
    if step.TranslateTurn? {
      TranslateMoves(env, s, step.task, step.translateEvent, l);
    } else if step.Command? {
      CommandMoves(env, s, step.sid, step.raw, step.choice, l);
    } else if step.Data? {
      DataMoves(env, s, step.sid, step.via, step.raw, l);
    } else if TaskTurn(step) {
      ServiceMoves(env, s, step, l);
    } else {
      SessionMoves(env, s, step, l);
    }
  }

  lemma MovesEdge(env: Env, trace: seq<State>, steps: seq<Step>, n: nat, l: LeaseId)
    requires IsRun(env, trace, steps) && n < |steps|
    ensures Moves(trace[n], steps[n], trace[n + 1], l)
  {
    RunKeeps(env, trace, steps, n);
    assert StepAt(env, trace, steps, n);
    StepMoves(env, trace[n], steps[n], l);
  }

  /** All datagrams for the open internet handed over on lease `l` in the first
      `n` steps of a run, and all that its task has taken up. */
  function AllQueued(trace: seq<State>, steps: seq<Step>, n: nat, l: LeaseId): seq<(SocketAddr, Bytes)>
    requires n <= |steps| && |trace| == |steps| + 1
  {
    if n == 0 then [] else AllQueued(trace, steps, n - 1, l) + QueuedBy(trace[n - 1], steps[n - 1], l)
  }

  function AllTaken(steps: seq<Step>, n: nat, l: LeaseId): seq<(SocketAddr, Bytes)>
    requires n <= |steps|
  {
    if n == 0 then [] else AllTaken(steps, n - 1, l) + TakenBy(steps[n - 1], l)
  }

  /** All that steps of the task have sent out. */
  function AllSent(trace: seq<State>, steps: seq<Step>, n: nat, l: LeaseId): seq<(SocketAddr, Bytes)>
    requires n <= |steps| && |trace| == |steps| + 1
  {
    if n == 0 then [] else AllSent(trace, steps, n - 1, l) + SentBy(trace[n - 1], steps[n - 1], l)
  }

  lemma QueueConserved<T>(
    all: seq<T>, gone: seq<T>,
    waiting: seq<T>, queued: seq<T>, taken: seq<T>, waiting': seq<T>, sent: seq<T>, out: seq<T>, sent': seq<T>)
    requires all == gone + waiting && Picked(sent, gone)
    requires QueueMoves(waiting, queued, taken, waiting', sent, out, sent')
    ensures all + queued == gone + taken + waiting' && Picked(sent', gone + taken)
  {
    assert all + queued == gone + (waiting + queued);
    assert gone + (taken + waiting') == gone + taken + waiting';
    PickedSame(sent, gone, taken);
    if out == [] {
      assert sent + out == sent;
    } else {
      PickedOneMore(sent, gone, taken[0]);
      assert taken == [taken[0]];
    }
  }

  /** Of the first `n` steps of a run: what the task of `l` has taken up and what
      still waits for it are, in order, what has been handed over for it; and
      what it has sent out is what it has taken up, to the same peers,
      unchanged, once and in order, less exactly what its family had no socket
      for or the system did not take. */
  ghost predicate TrafficConserved(trace: seq<State>, steps: seq<Step>, n: nat, l: LeaseId) {
    && n < |trace| == |steps| + 1
    && AllQueued(trace, steps, n, l) == AllTaken(steps, n, l) + WaitingOf(trace[n], l)
    && SentOf(trace[n], l) == AllSent(trace, steps, n, l)
    && Picked(SentOf(trace[n], l), AllTaken(steps, n, l))
  }

  lemma TrafficEdge(trace: seq<State>, steps: seq<Step>, n: nat, l: LeaseId)
    requires n < |steps| && |trace| == |steps| + 1
    requires TrafficConserved(trace, steps, n, l) && Moves(trace[n], steps[n], trace[n + 1], l)
    ensures TrafficConserved(trace, steps, n + 1, l)
  {
    var s, t, step := trace[n], trace[n + 1], steps[n];
    QueueConserved(AllQueued(trace, steps, n, l), AllTaken(steps, n, l),
      WaitingOf(s, l), QueuedBy(s, step, l), TakenBy(step, l), WaitingOf(t, l),
      SentOf(s, l), SentBy(s, step, l), SentOf(t, l));
  }

  lemma TrafficStarts(trace: seq<State>, steps: seq<Step>, l: LeaseId)
    requires |trace| == |steps| + 1 && trace[0] == INITIAL
    ensures TrafficConserved(trace, steps, 0, l)
  {
    assert PickedAt(SentOf(trace[0], l), AllTaken(steps, 0, l), []);
  }

  /** End to end: the datagrams that a client's lease carries to the open
      internet are its client's own, and nothing but a failed send loses one. */
  lemma InternetTrafficIsClientsOwn(env: Env, trace: seq<State>, steps: seq<Step>, n: nat, l: LeaseId)
    requires IsRun(env, trace, steps) && n < |trace|
    ensures TrafficConserved(trace, steps, n, l)
  {
    TrafficStarts(trace, steps, l);
    forall k | 0 <= k < n && TrafficConserved(trace, steps, k, l) ensures TrafficConserved(trace, steps, k + 1, l) {
      MovesEdge(env, trace, steps, k, l);
      TrafficEdge(trace, steps, k, l);
    }
    Along(n, (k: nat) => TrafficConserved(trace, steps, k, l));
  }

  // ----- from the open internet -----

  /** The frame that a step's turn of task `l` sends on the relay, and the
      datagram it has taken in for it. */
  function FramesBy(s: State, step: Step, l: LeaseId): seq<Bytes> {
    match step
    case TranslateTurn(j, e) =>
      if j == l && l in s.tasks && s.tasks[l].job.Translating?
      then Translate.Step(s.tasks[l].job.t, e, Hears(s, s.tasks[l].relay)).1 else []
    case _ => []
  }

  function TakenInBy(s: State, step: Step, l: LeaseId): seq<(SocketAddr, Bytes)> {
    match step
    case TranslateTurn(j, e) =>
      if j == l && l in s.tasks && s.tasks[l].job.Translating?
      then Translate.TakenIn(s.tasks[l].job.t, e, Hears(s, s.tasks[l].relay)) else []
    case _ => []
  }

  /** The relay that the task of lease `l` sends on. */
  function RelayOf(s: State, l: LeaseId): seq<Bytes> {
    if l in s.tasks then Inbox(s, s.tasks[l].relay) else []
  }

  ghost predicate FramesIn(s: State, step: Step, t: State, l: LeaseId) {
    && Translate.FramesOf(FramesBy(s, step, l), TakenInBy(s, step, l))
    && (FramesBy(s, step, l) == [] ==> l in s.tasks ==> RelayOf(s, l) <= RelayOf(t, l))
    && (FramesBy(s, step, l) != [] ==>
          l in s.tasks && |FramesBy(s, step, l)| == 1 && RelayOf(t, l) == RelayOf(s, l) + FramesBy(s, step, l))
  }

  lemma TurnFramesIn(env: Env, s: State, l: LeaseId, e: Translate.Event)
    requires Enabled(env, s, TranslateTurn(l, e))
    ensures var t, frames := TurnTranslate(s, l, e), FramesBy(s, TranslateTurn(l, e), l);
      && Translate.FramesOf(frames, TakenInBy(s, TranslateTurn(l, e), l))
      && |frames| <= 1 && RelayOf(t, l) == RelayOf(s, l) + frames
  {
    var task := s.tasks[l];
    Translate.StepFrames(task.job.t, e, Hears(s, task.relay));
    assert RelayOf(s, l) + [] == RelayOf(s, l);
  }

  lemma FramesEdge(env: Env, trace: seq<State>, steps: seq<Step>, n: nat, l: LeaseId)
    requires IsRun(env, trace, steps) && n < |steps|
    ensures FramesIn(trace[n], steps[n], trace[n + 1], l)
  {
    assert StepAt(env, trace, steps, n);
    TaskEdge(env, trace, steps, n, l);
    if l in trace[n].tasks {
      InboxEdge(env, trace, steps, n, trace[n].tasks[l].relay);
      OwnTurnFramesIn(env, trace[n], steps[n], l);
    }
  }

  lemma OwnTurnFramesIn(env: Env, s: State, step: Step, l: LeaseId)
    requires Enabled(env, s, step)
    ensures var frames := FramesBy(s, step, l);
      && Translate.FramesOf(frames, TakenInBy(s, step, l))
      && |frames| <= 1
      && (frames != [] ==> RelayOf(Next(env, s, step), l) == RelayOf(s, l) + frames)
  {
    match step
    case TranslateTurn(j, e) =>
      if j == l {
        TurnFramesIn(env, s, l, e);
      }
    case _ =>
  }

  /** All frames that the task of `l` has sent on its relay in the first `n`
      steps of a run, and all datagrams it has taken in. */
  function AllFrames(trace: seq<State>, steps: seq<Step>, n: nat, l: LeaseId): seq<Bytes>
    requires n <= |steps| && |trace| == |steps| + 1
  {
    if n == 0 then [] else AllFrames(trace, steps, n - 1, l) + FramesBy(trace[n - 1], steps[n - 1], l)
  }

  function AllTakenIn(trace: seq<State>, steps: seq<Step>, n: nat, l: LeaseId): seq<(SocketAddr, Bytes)>
    requires n <= |steps| && |trace| == |steps| + 1
  {
    if n == 0 then [] else AllTakenIn(trace, steps, n - 1, l) + TakenInBy(trace[n - 1], steps[n - 1], l)
  }

  /** Of the first `n` steps of a run: frame for frame, with peer and payload,
      the task of `l` has sent what its sockets received while its session read
      its relay; and each frame is on that relay once, in order, whatever else
      is there in between. */
  ghost predicate InternetArrives(trace: seq<State>, steps: seq<Step>, n: nat, l: LeaseId) {
    && n < |trace| == |steps| + 1
    && Translate.FramesOf(AllFrames(trace, steps, n, l), AllTakenIn(trace, steps, n, l))
    && Picked(AllFrames(trace, steps, n, l), RelayOf(trace[n], l))
    && (l !in trace[n].tasks ==> AllFrames(trace, steps, n, l) == [])
  }

  lemma FramesPicked(all: seq<Bytes>, frames: seq<Bytes>, relay: seq<Bytes>, relay': seq<Bytes>)
    requires Picked(all, relay) && |frames| <= 1
    requires if frames == [] then relay <= relay' else relay' == relay + frames
    ensures Picked(all + frames, relay')
  {
    if frames == [] {
      PickedLonger(all, relay, relay');
      assert all + [] == all;
    } else {
      PickedOneMore(all, relay, frames[0]);
      assert frames == [frames[0]];
    }
  }

  lemma NothingPicked(relay: seq<Bytes>)
    ensures Picked([], relay)
  {
    assert PickedAt([], relay, []);
  }

  lemma ArrivesEdge(trace: seq<State>, steps: seq<Step>, n: nat, l: LeaseId)
    requires n < |steps| && InternetArrives(trace, steps, n, l)
    requires FramesIn(trace[n], steps[n], trace[n + 1], l) && TaskKept(trace[n], trace[n + 1], l)
    ensures InternetArrives(trace, steps, n + 1, l)
  {
    var s, t, step := trace[n], trace[n + 1], steps[n];
    Translate.FramesOfBoth(AllFrames(trace, steps, n, l), AllTakenIn(trace, steps, n, l),
      FramesBy(s, step, l), TakenInBy(s, step, l));
    if l in s.tasks {
      FramesPicked(AllFrames(trace, steps, n, l), FramesBy(s, step, l), RelayOf(s, l), RelayOf(t, l));
    } else {
      NothingPicked(RelayOf(t, l));
      assert AllFrames(trace, steps, n + 1, l) == [];
    }
  }

  lemma ArrivesStarts(trace: seq<State>, steps: seq<Step>, l: LeaseId)
    requires |trace| == |steps| + 1 && trace[0] == INITIAL
    ensures InternetArrives(trace, steps, 0, l)
  {
    NothingPicked([]);
  }

  /** End to end, the other way: the datagrams from the open internet that a
      client reads are those its own task received, from the same peers and
      unchanged, each once and in order. */
  lemma InternetReachesClient(env: Env, trace: seq<State>, steps: seq<Step>, n: nat, l: LeaseId)
    requires IsRun(env, trace, steps) && n < |trace|
    ensures InternetArrives(trace, steps, n, l)
  {
    ArrivesStarts(trace, steps, l);
    forall k | 0 <= k < n && InternetArrives(trace, steps, k, l) ensures InternetArrives(trace, steps, k + 1, l) {
      FramesEdge(env, trace, steps, k, l);
      TaskEdge(env, trace, steps, k, l);
      ArrivesEdge(trace, steps, k, l);
    }
    Along(n, (k: nat) => InternetArrives(trace, steps, k, l));
  }
}
