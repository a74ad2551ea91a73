/** The whole proxy as one machine: every session, lease and task, the private
    network between them, and every order in which they can take their turns.
    Each locked section is one step; a bind takes two, the locked insert and
    the making of the lease. A session's id also stands for its relay. */
module Proxy {
  import opened Wrappers
  import opened BigEndian
  import opened Code
  import opened NetworkState
  import opened Network
  import opened Commands
  import opened Session
  import ConnectProxy
  import DnsProxy
  import Translate
  import WebSocket
  import WebTransport

  type SessionId = nat

  /** The proxy's own services on the private network. */
  const CONNECT_PROXY: SocketAddr := SocketAddr(V6(PROXY_ADDRESS), 8080)
  const DNS_PROXY: SocketAddr := SocketAddr(V6(PROXY_ADDRESS), 53)

  /** What does not change while the proxy runs. */
  datatype Env = Env(ip: IpText, hosts: set<string>)

  datatype Transport = OverWebSocket | OverWebTransport

  /** A session serves its client, or waits inside a BIND whose port is already
      claimed, or has left its loop (its relay receiver is gone), or has been
      dropped with all it held. */
  datatype Phase = Serving | Binding(call: Call, key: RouteKey) | Ending | Gone

  datatype Client = Client(
    transport: Transport,
    phase: Phase,
    send: bool,               // there is a stream or socket to answer on
    relayTx: bool,            // the session still holds its own relay sender
    lease: Option<LeaseId>,
    relayUdp: bool,
    inbox: seq<Bytes>,        // everything ever queued on the relay
    taken: nat,               // how much of it the session has read
    replies: seq<string>)     // the answers to its commands

  /** Whether the receiving half of the session's relay still exists. */
  predicate Listening(c: Client) {
    c.phase.Serving? || c.phase.Binding?
  }

  /** A lease is a token: a bound port, or a link to one of the services. */
  datatype Lease = Lease(owner: SessionId, key: Option<RouteKey>)

  /** The task behind a lease, with what the lease has handed to it. */
  datatype Job =
    | Translating(t: Translate.Translator, outgoing: seq<(SocketAddr, Bytes)>)
    | Connecting(h: ConnectProxy.History, given: seq<Bytes>, read: nat)
    | Resolving(asked: seq<Bytes>, answered: seq<(Bytes, Option<seq<IpAddr>>)>)

  /** A service task drops its receiver when its loop returns, and its relay
      sender only after that, when it exits. */
  datatype Progress = Working | Returned(failed: bool) | Exited(failed: bool)

  datatype Task = Task(relay: SessionId, job: Job, progress: Progress)

  datatype State = State(
    now: nat,
    net: NetState<SessionId>,
    clients: map<SessionId, Client>,
    leases: map<LeaseId, Lease>,       // the leases that have not been dropped
    tasks: map<LeaseId, Task>,         // every task ever started, by its lease
    touches: seq<(Ipv6, nat)>,         // every assign, bind and unbind, with its time
    bufs: map<SessionId, Bytes>)       // what WebTransport sessions have read and not processed

  const INITIAL: State := State(0, NetState(map[], map[], map[]), map[], map[], map[], [], map[])

  /** How data reaches a session: a binary message, the stream, or a datagram. */
  datatype Via = BinaryMessage | StreamChunk | DatagramMessage

  /** The choices of one command: what is drawn if it hands out an address, how
      late the clock is by then, the identity of a new lease, and whether the
      client's connection takes the response. */
  datatype Choice = Choice(address: Ipv6, passcode: Passcode, later: nat, lease: LeaseId, answered: bool)

  datatype Step =
    | Tick(later: nat)
    | Open(sid: SessionId, transport: Transport)
    | AcceptStream(sid: SessionId)
    | Command(sid: SessionId, raw: Bytes, choice: Choice)
    | Buffer(sid: SessionId, data: Bytes)
    | Overgrown(sid: SessionId)
    | BindDone(sid: SessionId, lease: LeaseId, answered: bool)
    | Data(sid: SessionId, via: Via, raw: Bytes)
    | ReadRelay(sid: SessionId, link: Link)
    | Disconnect(sid: SessionId)
    | DropSession(sid: SessionId)
    | TranslateTurn(task: LeaseId, translateEvent: Translate.Event)
    | ConnectTurn(task: LeaseId, connectEvent: ConnectProxy.Event)
    | ResolveTurn(task: LeaseId, found: Option<seq<IpAddr>>)
    | ResolveEnds(task: LeaseId)
    | TaskExit(task: LeaseId)

  /** The step is a turn of a task, not of a session. */
  predicate TaskTurn(step: Step) {
    step.TranslateTurn? || step.ConnectTurn? || step.ResolveTurn? || step.ResolveEnds? || step.TaskExit?
  }

  // ----- pieces of a step -----

  function SetClient(s: State, sid: SessionId, c: Client): State {
    s.(clients := s.clients[sid := c])
  }

  function SetTask(s: State, l: LeaseId, task: Task): State {
    s.(tasks := s.tasks[l := task])
  }

  /** The command buffer of a session. */
  function BufOf(s: State, sid: SessionId): Bytes {
    if sid in s.bufs then s.bufs[sid] else []
  }

  /** A WebTransport session is in the middle of the bytes it has read: there
      is a line to run or a limit to enforce, or data to hand to the lease. */
  predicate Busy(s: State, sid: SessionId) {
    sid in s.clients && s.clients[sid].transport == OverWebTransport &&
    if s.clients[sid].lease.Some? then BufOf(s, sid) != []
    else WebTransport.NEWLINE in BufOf(s, sid) || |BufOf(s, sid)| >= MAX_COMMAND_SIZE
  }

  /** The first line in the buffer is `raw`. */
  predicate HasLine(s: State, sid: SessionId, raw: Bytes) {
    var buf := BufOf(s, sid);
    WebTransport.IndexOf(WebTransport.NEWLINE, buf) == Some(|raw|) && raw == buf[..|raw|]
  }

  /** The buffers once the line `raw` has been taken off. */
  function LineTaken(s: State, sid: SessionId, raw: Bytes): map<SessionId, Bytes> {
    if sid in s.clients && s.clients[sid].transport == OverWebTransport && |raw| < |BufOf(s, sid)|
    then s.bufs[sid := BufOf(s, sid)[|raw| + 1..]]
    else s.bufs
  }

  /** The session leaves its loop. */
  function End(s: State, sid: SessionId): State
    requires sid in s.clients
  {
    SetClient(s, sid, s.clients[sid].(phase := Ending))
  }

  predicate Hears(s: State, sid: SessionId) {
    sid in s.clients && Listening(s.clients[sid])
  }

  /** Messages sent on a session's relay; lost if nobody receives them. */
  function Post(s: State, sid: SessionId, messages: seq<Bytes>): State {
    if Hears(s, sid) then
      var c := s.clients[sid];
      SetClient(s, sid, c.(inbox := c.inbox + messages))
    else s
  }

  /** The session's own fields once the service has answered a command. It
      leaves its loop if it cannot write the response. */
  function AfterCommand(env: Env, c: Client, sid: SessionId, call: Call, answer: Answer, answered: bool): Client {
    var left := RelayAfter(call, answer, if c.relayTx then Some(sid) else None).Some?;
    match Conclude(env.ip, call, answer)
    case None => c.(phase := Ending, relayTx := left)
    case Some(result) =>
      var d := c.(phase := Ending, relayTx := left);
      var d := if answered then d.(phase := Serving, replies := c.replies + [result.response]) else d;
      if result.newLease.Some? then d.(lease := result.newLease, relayUdp := result.relayUdp) else d
  }

  function Touch(s: State, address: Ipv6, at: nat): seq<(Ipv6, nat)> {
    s.touches + [(address, at)]
  }

  function ServiceJob(addr: SocketAddr): Option<Job> {
    if addr == CONNECT_PROXY then
      Some(Connecting(ConnectProxy.History(ConnectProxy.NEW_TUNNEL, [], [], []), [], 0))
    else if addr == DNS_PROXY then Some(Resolving([], []))
    else None
  }

  /** The service's part of a command, and the session after it. */
  function Serve(env: Env, s: State, sid: SessionId, call: Call, choice: Choice): State
    requires sid in s.clients
  {
    var c := s.clients[sid];
    match call
    case NewAddress =>
      var answer := Assigned(choice.address, choice.passcode);
      SetClient(s, sid, AfterCommand(env, c, sid, call, answer, choice.answered)).(
        now := choice.later,
        net := Issued(Expired(s.net, s.now), choice.address, choice.passcode, choice.later),
        touches := Touch(s, choice.address, choice.later))
    case Claim(passcode, port, relay) =>
      (match Bind(s.net, passcode, port, relay, s.now)
       case Err(_) => SetClient(s, sid, AfterCommand(env, c, sid, call, Refused, choice.answered))
       case Ok(bound) =>
         SetClient(s, sid, c.(phase := Binding(call, bound.1))).(
           net := bound.0, touches := Touch(s, bound.1.address, s.now)))
    case Route(addr, relay) =>
      match ServiceJob(addr)
      case None => SetClient(s, sid, AfterCommand(env, c, sid, call, Refused, choice.answered))
      case Some(job) =>
        SetClient(s, sid, AfterCommand(env, c, sid, call, Granted(choice.lease), choice.answered)).(
          leases := s.leases[choice.lease := Lease(sid, None)],
          tasks := s.tasks[choice.lease := Task(relay, job, Working)])
  }

  /** A bind's second half: the lease and its task, outside the lock. */
  function FinishBind(env: Env, s: State, sid: SessionId, l: LeaseId, answered: bool): State
    requires sid in s.clients && s.clients[sid].phase.Binding?
  {
    var c := s.clients[sid];
    SetClient(s, sid, AfterCommand(env, c, sid, c.phase.call, Granted(l), answered)).(
      leases := s.leases[l := Lease(sid, Some(c.phase.key))],
      tasks := s.tasks[l := Task(sid, Translating(Translate.NEW_TRANSLATOR, []), Working)])
  }

  function PlanFor(env: Env, c: Client, sid: SessionId, raw: Bytes): Plan {
    PlanCommand(env.ip, raw, if c.relayTx then Some(sid) else None)
  }

  function RunCommand(env: Env, s: State, sid: SessionId, raw: Bytes, choice: Choice): State
    requires sid in s.clients
  {
    if s.clients[sid].lease.Some? then End(s, sid)
    else RunPlan(env, s, sid, PlanFor(env, s.clients[sid], sid, raw), choice)
  }

  function RunPlan(env: Env, s: State, sid: SessionId, plan: Plan, choice: Choice): State
    requires sid in s.clients
  {
    var c := s.clients[sid];
    match plan
    case Fail => End(s, sid)
    case Respond(response) =>
      if choice.answered then SetClient(s, sid, c.(replies := c.replies + [response])) else End(s, sid)
    case Ask(call) => Serve(env, s, sid, call, choice)
  }

  /** A bound lease's handler: the state after it, or none if it fails. */
  function SendBound(s: State, l: LeaseId, key: RouteKey, raw: Bytes): Option<State>
    requires l in s.tasks
  {
    match DispatchFrame(key, raw)
    case BadFrame => None
    case Oversize => None
    case Inward(to, wire) => Some(if to in s.net.routes then Post(s, s.net.routes[to], [wire]) else s)
    case Outward(peer, data) =>
      var task := s.tasks[l];
      if task.progress == Working && task.job.Translating? then
        Some(SetTask(s, l, task.(job := task.job.(outgoing := task.job.outgoing + [(peer, data)]))))
      else None
  }

  /** A service link's handler. */
  function SendService(s: State, l: LeaseId, raw: Bytes): Option<State>
    requires l in s.tasks
  {
    var task := s.tasks[l];
    if task.progress != Working then None
    else
      match task.job
      case Connecting(h, given, read) => Some(SetTask(s, l, task.(job := Connecting(h, given + [raw], read))))
      case Resolving(asked, answered) => Some(SetTask(s, l, task.(job := Resolving(asked + [raw], answered))))
      case Translating(_, _) => None
  }

  /** `ProxyLease::send`. */
  function Send(s: State, l: LeaseId, raw: Bytes): Option<State> {
    if l !in s.leases || l !in s.tasks then None
    else if s.leases[l].key.Some? then SendBound(s, l, s.leases[l].key.value, raw)
    else SendService(s, l, raw)
  }

  function OnData(c: Client, via: Via, raw: Bytes): DataAction {
    match via
    case BinaryMessage => WebSocket.OnBinary(c.lease.Some?)
    case StreamChunk => WebTransport.OnStream(raw, c.relayUdp)
    case DatagramMessage => WebTransport.OnDatagram(c.lease.Some?, c.relayUdp)
  }

  /** Data from the client of a serving session. */
  function HandData(s: State, sid: SessionId, via: Via, raw: Bytes): State
    requires sid in s.clients
  {
    var c := s.clients[sid];
    match OnData(c, via, raw)
    case Drop => s
    case Refuse => End(s, sid)
    case Forward =>
      if c.lease.None? then s
      else
        match Send(s, c.lease.value, raw)
        case None => End(s, sid)
        case Some(s') => s'
  }

  /** `ProxyLease::is_live`: a bound port always is, a service link as long as
      its task has not dropped its receiver. */
  predicate IsLive(s: State, l: LeaseId) {
    l in s.leases && (s.leases[l].key.Some? || (l in s.tasks && s.tasks[l].progress == Working))
  }

  function OnRelayMessage(s: State, c: Client, message: Option<Bytes>): RelayAction {
    var live := match c.lease case Some(l) => Some(IsLive(s, l)) case None => None;
    if c.transport == OverWebSocket then WebSocket.OnRelay(message, live)
    else WebTransport.OnRelay(message, live, c.relayUdp)
  }

  /** Somebody can still send on the relay. */
  ghost predicate HasSender(s: State, sid: SessionId) {
    || (sid in s.clients && s.clients[sid].relayTx)
    || (exists k | k in s.net.routes :: s.net.routes[k] == sid)
    || (exists l | l in s.tasks :: s.tasks[l].relay == sid && !s.tasks[l].progress.Exited?)
  }

  /** `recv` on the relay returns none: it is empty and nobody can fill it. */
  ghost predicate RelayClosed(s: State, sid: SessionId)
    requires sid in s.clients
  {
    s.clients[sid].taken >= |s.clients[sid].inbox| && !HasSender(s, sid)
  }

  function NextMessage(c: Client): Option<Bytes> {
    if c.taken < |c.inbox| then Some(c.inbox[c.taken]) else None
  }

  /** The next message, if there is one, comes off the relay. */
  function Take(s: State, sid: SessionId): State
    requires sid in s.clients
  {
    var c := s.clients[sid];
    SetClient(s, sid, if NextMessage(c).Some? then c.(taken := c.taken + 1) else c)
  }

  /** What comes off the relay is written to the client's connection as that
      is at the moment; the session leaves its loop if it cannot be. */
  function Read(s: State, sid: SessionId, link: Link): State
    requires sid in s.clients
  {
    var c := s.clients[sid];
    var action := OnRelayMessage(s, c, NextMessage(c));
    if GoesOn(action, Content(NextMessage(c)), link) then Take(s, sid) else End(Take(s, sid), sid)
  }

  /** Dropping a session drops its relay sender and its lease; dropping a bound
      lease releases its port. */
  function DropClient(s: State, sid: SessionId): State
    requires sid in s.clients
  {
    var c := s.clients[sid];
    var dropped := SetClient(s, sid, c.(phase := Gone, relayTx := false, lease := None, relayUdp := false));
    match c.lease
    case None => dropped
    case Some(l) =>
      var released := dropped.(leases := s.leases - {l});
      if l in s.leases && s.leases[l].key.Some? then
        var key := s.leases[l].key.value;
        released.(net := Unbind(s.net, key, s.now), touches := Touch(s, key.address, s.now))
      else released
  }

  /** A translation task after its turn. */
  function AfterTranslate(task: Task, e: Translate.Event, open: bool): Task
    requires task.job.Translating?
  {
    var t := Translate.Step(task.job.t, e, open).0;
    var waiting := if e.Outgoing? && task.job.outgoing != [] then task.job.outgoing[1..] else task.job.outgoing;
    task.(job := Translating(t, waiting), progress := if t.running then Working else Exited(false))
  }

  function TurnTranslate(s: State, l: LeaseId, e: Translate.Event): State
    requires l in s.tasks && s.tasks[l].job.Translating?
  {
    var task := s.tasks[l];
    var open := Hears(s, task.relay);
    SetTask(Post(s, task.relay, Translate.Step(task.job.t, e, open).1), l, AfterTranslate(task, e, open))
  }

  /** A CONNECT task after its turn. */
  function AfterConnect(env: Env, task: Task, e: ConnectProxy.Event, open: bool): Task
    requires task.job.Connecting?
  {
    var h := ConnectProxy.Advance(env.hosts, task.job.h, e, open);
    var read := if e.Chunk? then task.job.read + 1 else task.job.read;
    var progress := match h.t.status
      case Running => Working
      case Finished => Returned(false)
      case Failed => Returned(true);
    task.(job := Connecting(h, task.job.given, read), progress := progress)
  }

  function TurnConnect(env: Env, s: State, l: LeaseId, e: ConnectProxy.Event): State
    requires l in s.tasks && s.tasks[l].job.Connecting?
  {
    var task := s.tasks[l];
    var open := Hears(s, task.relay);
    var sent := ConnectProxy.Step(env.hosts, task.job.h.t, e, open).1;
    SetTask(Post(s, task.relay, sent), l, AfterConnect(env, task, e, open))
  }

  function TurnResolve(s: State, l: LeaseId, found: Option<seq<IpAddr>>): State
    requires l in s.tasks && s.tasks[l].job.Resolving?
    requires |s.tasks[l].job.answered| < |s.tasks[l].job.asked|
  {
    var task := s.tasks[l];
    var query := task.job.asked[|task.job.answered|];
    if Hears(s, task.relay) then
      SetTask(Post(s, task.relay, [DnsProxy.Answer(query, found)]), l,
        task.(job := Resolving(task.job.asked, task.job.answered + [(query, found)])))
    else SetTask(s, l, task.(progress := Returned(true)))
  }

  /** A task that failed wakes its client with an empty message as it exits. */
  function Exit(s: State, l: LeaseId): State
    requires l in s.tasks && s.tasks[l].progress.Returned?
  {
    var task := s.tasks[l];
    var failed := task.progress.failed;
    SetTask(if failed then Post(s, task.relay, [[]]) else s, l, task.(progress := Exited(failed)))
  }

  // ----- the steps -----

  /** A new lease is a new one; and if an address is to be handed out, the
      draws have come up with a free pair. */
  ghost predicate ChoiceAllowed(s: State, plan: Plan, choice: Choice) {
    && choice.lease !in s.tasks
    && (plan == Ask(NewAddress) ==>
          && choice.later >= s.now && IsClientAddress(choice.address)
          && IsFree(Expired(s.net, s.now), choice.address, choice.passcode))
  }

  ghost predicate AtWork(s: State, l: LeaseId) {
    l in s.tasks && s.tasks[l].progress == Working
  }

  /** What a translation task can wake up to: what its lease has sent, the end
      of its lease once that is read, or a datagram that fits its buffer. */
  ghost predicate TranslateWakes(s: State, l: LeaseId, e: Translate.Event)
    requires l in s.tasks && s.tasks[l].job.Translating?
  {
    var outgoing := s.tasks[l].job.outgoing;
    match e
    case Outgoing(peer, data, _, _) => outgoing != [] && outgoing[0] == (peer, data)
    case LeaseDropped => outgoing == [] && l !in s.leases
    case Incoming(_, _) => Translate.Fits(e)
  }

  ghost predicate ConnectWakes(s: State, l: LeaseId, e: ConnectProxy.Event)
    requires l in s.tasks && s.tasks[l].job.Connecting?
  {
    var job := s.tasks[l].job;
    match e
    case Chunk(data, _, _) => job.read < |job.given| && job.given[job.read] == data
    case ClientGone => job.read >= |job.given| && l !in s.leases
    case _ => job.h.t.connRead
  }

  ghost predicate Enabled(env: Env, s: State, step: Step) {
    match step
    case Tick(later) => later >= s.now
    case Open(sid, _) => sid !in s.clients
    case AcceptStream(sid) =>
      && sid in s.clients && s.clients[sid].phase.Serving? && s.clients[sid].transport == OverWebTransport
      && !Busy(s, sid)
    case Command(sid, raw, choice) =>
      && sid in s.clients && s.clients[sid].phase.Serving? && s.clients[sid].send
      && (s.clients[sid].transport == OverWebTransport ==> s.clients[sid].lease.None? && HasLine(s, sid, raw))
      && ChoiceAllowed(s, PlanFor(env, s.clients[sid], sid, raw), choice)
    case Buffer(sid, data) =>
      && sid in s.clients && s.clients[sid].phase.Serving? && s.clients[sid].send
      && s.clients[sid].transport == OverWebTransport && s.clients[sid].lease.None?
      && !Busy(s, sid) && data != []
    case Overgrown(sid) =>
      && sid in s.clients && s.clients[sid].phase.Serving? && s.clients[sid].send
      && s.clients[sid].transport == OverWebTransport && s.clients[sid].lease.None?
      && WebTransport.NEWLINE !in BufOf(s, sid) && |BufOf(s, sid)| >= MAX_COMMAND_SIZE
    case BindDone(sid, l, _) => sid in s.clients && s.clients[sid].phase.Binding? && l !in s.tasks
    case Data(sid, via, raw) =>
      && sid in s.clients && s.clients[sid].phase.Serving?
      && (s.clients[sid].transport == OverWebSocket <==> via.BinaryMessage?)
      && (via.StreamChunk? ==>
            && s.clients[sid].send && s.clients[sid].lease.Some?
            && if BufOf(s, sid) == [] then raw != [] else raw == BufOf(s, sid))
      && (via.DatagramMessage? ==> !Busy(s, sid))
    case ReadRelay(sid, _) =>
      && sid in s.clients && s.clients[sid].phase.Serving?
      && (NextMessage(s.clients[sid]).Some? || RelayClosed(s, sid))
      && !Busy(s, sid)
    case Disconnect(sid) => sid in s.clients && s.clients[sid].phase.Serving?
    case DropSession(sid) => sid in s.clients && s.clients[sid].phase.Ending?
    case TranslateTurn(l, e) => AtWork(s, l) && s.tasks[l].job.Translating? && TranslateWakes(s, l, e)
    case ConnectTurn(l, e) => AtWork(s, l) && s.tasks[l].job.Connecting? && ConnectWakes(s, l, e)
    case ResolveTurn(l, _) =>
      AtWork(s, l) && s.tasks[l].job.Resolving? && |s.tasks[l].job.answered| < |s.tasks[l].job.asked|
    case ResolveEnds(l) =>
      && AtWork(s, l) && s.tasks[l].job.Resolving? && |s.tasks[l].job.answered| == |s.tasks[l].job.asked|
      && l !in s.leases
    case TaskExit(l) => l in s.tasks && s.tasks[l].progress.Returned?
  }

  ghost function Next(env: Env, s: State, step: Step): State
    requires Enabled(env, s, step)
  {
    match step
    case Tick(later) => s.(now := later)
    case Open(sid, transport) =>
      SetClient(s, sid,
        Client(transport, Serving, transport == OverWebSocket, true, None, false, [], 0, []))
    case AcceptStream(sid) =>
      if s.clients[sid].send then End(s, sid) else SetClient(s, sid, s.clients[sid].(send := true))
    case Buffer(sid, data) => s.(bufs := s.bufs[sid := BufOf(s, sid) + data])
    case Command(sid, raw, choice) => RunCommand(env, s, sid, raw, choice).(bufs := LineTaken(s, sid, raw))
    case Overgrown(sid) => End(s, sid)
    case BindDone(sid, l, answered) => FinishBind(env, s, sid, l, answered)
    case Data(sid, via, raw) =>
      HandData(s, sid, via, raw).(bufs := if via.StreamChunk? then s.bufs[sid := []] else s.bufs)
    case ReadRelay(sid, link) => Read(s, sid, link)
    case Disconnect(sid) => End(s, sid)
    case DropSession(sid) => DropClient(s, sid)
    case TranslateTurn(l, e) => TurnTranslate(s, l, e)
    case ConnectTurn(l, e) => TurnConnect(env, s, l, e)
    case ResolveTurn(l, found) => TurnResolve(s, l, found)
    case ResolveEnds(l) => SetTask(s, l, s.tasks[l].(progress := Returned(false)))
    case TaskExit(l) => Exit(s, l)
  }

  ghost predicate TakesStep(env: Env, s: State, step: Step, s': State) {
    Enabled(env, s, step) && s' == Next(env, s, step)
  }

  ghost predicate StepAt(env: Env, trace: seq<State>, steps: seq<Step>, i: nat) {
    i < |steps| && |trace| == |steps| + 1 && TakesStep(env, trace[i], steps[i], trace[i + 1])
  }

  /** A run: the states passed through and the steps between them. */
  ghost predicate IsRun(env: Env, trace: seq<State>, steps: seq<Step>) {
    && |trace| == |steps| + 1 && trace[0] == INITIAL
    && forall i | 0 <= i < |steps| :: StepAt(env, trace, steps, i)
  }
}
