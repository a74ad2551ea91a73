/** How the life of a session goes: what it reads off its relay, and what
    makes it leave its loop. */
module ProxyLives {
  import opened Wrappers
  import opened BigEndian
  import opened NetworkState
  import opened Commands
  import opened Session
  import opened Proxy
  import opened ProxyInvariant
  import opened ProxyRuns
  import opened ProxySafety
  import opened ProxyHistory
  import opened ProxyRelays
  import Packet

  // ----- what ends a session -----

  /** The lease takes data: a service link while it is live, a bound port for
      every frame that decodes. */
  ghost predicate LeaseTakes(s: State, l: LeaseId, raw: Bytes) {
    l in s.leases && if s.leases[l].key.Some? then Packet.Decode(raw).Some? else IsLive(s, l)
  }

  /** Data that the session cannot do anything with: without a lease if it is
      a binary message, of the wrong kind for its lease, or not taken by it. */
  ghost predicate DataIsFatal(s: State, c: Client, via: Via, raw: Bytes) {
    match (via, c.lease)
    case (BinaryMessage, None) => true
    case (BinaryMessage, Some(l)) => !LeaseTakes(s, l, raw)
    case (StreamChunk, None) => raw != [] && c.relayUdp
    case (StreamChunk, Some(l)) => raw != [] && (c.relayUdp || !LeaseTakes(s, l, raw))
    case (DatagramMessage, None) => false
    case (DatagramMessage, Some(l)) => !c.relayUdp || !LeaseTakes(s, l, raw)
  }

  /** A command that comes under a lease, or makes no sense, or asks for a
      service there is none of, or whose response cannot be written; the
      response to a BIND that has claimed its port is still to come. */
  ghost predicate CommandIsFatal(env: Env, s: State, c: Client, sid: SessionId, raw: Bytes, choice: Choice) {
    || c.lease.Some?
    || match PlanFor(env, c, sid, raw)
       case Fail => true
       case Ask(Route(addr, _)) => (!IsProxyPort(addr, 8080) && !IsProxyPort(addr, 53)) || !choice.answered
       case Ask(Claim(passcode, port, relay)) => Bind(s.net, passcode, port, relay, s.now).Err? && !choice.answered
       case _ => !choice.answered
  }

  /** Why a session leaves its loop. */
  ghost predicate EndsIt(env: Env, s: State, step: Step, sid: SessionId)
    requires sid in s.clients
  {
    var c := s.clients[sid];
    match step
    case Disconnect(i) => i == sid
    case AcceptStream(i) => i == sid && c.send
    case Overgrown(i) => i == sid
    case Command(i, raw, choice) => i == sid && CommandIsFatal(env, s, c, sid, raw, choice)
    case BindDone(i, _, answered) => i == sid && !answered
    case Data(i, via, raw) => i == sid && DataIsFatal(s, c, via, raw)
    case ReadRelay(i, link) => i == sid && MessageIsFatal(c, link)
    case _ => false
  }

  /** A relay that is closed, the empty message, or one that the client's
      connection does not take. */
  ghost predicate MessageIsFatal(c: Client, link: Link) {
    match NextMessage(c)
    case None => true
    case Some(m) => m == [] || !TakesMessage(c, m, link)
  }

  /** The session leaves its loop with the step before. */
  ghost predicate Leaves(t: State, sid: SessionId) {
    sid in t.clients && t.clients[sid].phase.Ending?
  }

  ghost predicate StaysOn(t: State, sid: SessionId) {
    sid in t.clients && Listening(t.clients[sid])
  }

  lemma SendTakes(env: Env, s: State, sid: SessionId, l: LeaseId, raw: Bytes)
    requires Reachable(env, s) && sid in s.clients && s.clients[sid].phase.Serving? && s.clients[sid].lease == Some(l)
    ensures Send(s, l, raw).Some? <==> LeaseTakes(s, l, raw)
  {
    ReachableKeeps(env, s);
    assert HolderSound(s, sid) && LeaseServed(s, l);
    if s.leases[l].key.Some? {
      SendFailsIffFrameIsBad(env, s, sid, s.leases[l].key.value, raw);
    } else {
      ServiceTakesWhileLive(env, s, sid, l, raw);
    }
  }

  lemma SendKeepsPhases(s: State, l: LeaseId, raw: Bytes, sid: SessionId)
    requires Send(s, l, raw).Some? && sid in s.clients
    ensures var t := Send(s, l, raw).value; sid in t.clients && t.clients[sid].phase == s.clients[sid].phase
  {
  }

  lemma OwnDataEnds(env: Env, s: State, sid: SessionId, via: Via, raw: Bytes)
    requires Reachable(env, s) && Enabled(env, s, Data(sid, via, raw))
    ensures var t := HandData(s, sid, via, raw);
      if DataIsFatal(s, s.clients[sid], via, raw) then Leaves(t, sid) else StaysOn(t, sid)
  {
    var c := s.clients[sid];
    if c.lease.Some? {
      SendTakes(env, s, sid, c.lease.value, raw);
      if Send(s, c.lease.value, raw).Some? {
        SendKeepsPhases(s, c.lease.value, raw, sid);
      }
    }
  }

  lemma OtherDataStays(s: State, i: SessionId, via: Via, raw: Bytes, sid: SessionId)
    requires i in s.clients && sid in s.clients && sid != i && Listening(s.clients[sid])
    ensures StaysOn(HandData(s, i, via, raw), sid)
  {
    var c := s.clients[i];
    if c.lease.Some? && Send(s, c.lease.value, raw).Some? {
      SendKeepsPhases(s, c.lease.value, raw, sid);
    }
  }

  lemma ServeEnds(env: Env, s: State, sid: SessionId, raw: Bytes, choice: Choice, call: Call)
    requires sid in s.clients && s.clients[sid].phase.Serving? && s.clients[sid].lease.None?
    requires PlanFor(env, s.clients[sid], sid, raw) == Ask(call)
    ensures var t := Serve(env, s, sid, call, choice);
      if CommandIsFatal(env, s, s.clients[sid], sid, raw, choice) then Leaves(t, sid) else StaysOn(t, sid)
  {
  }

  lemma CommandEnds(env: Env, s: State, sid: SessionId, raw: Bytes, choice: Choice)
    requires sid in s.clients && s.clients[sid].phase.Serving?
    ensures var t := RunCommand(env, s, sid, raw, choice);
      if CommandIsFatal(env, s, s.clients[sid], sid, raw, choice) then Leaves(t, sid) else StaysOn(t, sid)
  {
    var c := s.clients[sid];
    match PlanFor(env, c, sid, raw)
    case Ask(call) =>
      if c.lease.None? {
        ServeEnds(env, s, sid, raw, choice, call);
      }
    case _ =>
  }

  lemma OtherCommandStays(env: Env, s: State, i: SessionId, raw: Bytes, choice: Choice, sid: SessionId)
    requires i in s.clients && sid in s.clients && sid != i && Listening(s.clients[sid])
    ensures StaysOn(RunCommand(env, s, i, raw, choice), sid)
  {
    match PlanFor(env, s.clients[i], i, raw)
    case Ask(call) => OtherServeStays(env, s, i, call, choice, sid);
    case _ =>
  }

  lemma ReadEnds(env: Env, s: State, sid: SessionId, link: Link)
    requires Reachable(env, s) && sid in s.clients && s.clients[sid].phase.Serving?
    ensures if MessageIsFatal(s.clients[sid], link) then Leaves(Read(s, sid, link), sid)
            else StaysOn(Read(s, sid, link), sid)
  {
    if NextMessage(s.clients[sid]).Some? {
      RelayMessageFate(env, s, sid, link);
    }
  }

  lemma BindDoneEnds(env: Env, s: State, sid: SessionId, l: LeaseId, answered: bool)
    requires sid in s.clients && s.clients[sid].phase.Binding? && ClientSound(s.clients[sid])
    ensures if answered then StaysOn(FinishBind(env, s, sid, l, answered), sid)
            else Leaves(FinishBind(env, s, sid, l, answered), sid)
  {
  }

  /** The step is one of session `sid` waking up in its own loop. */
  predicate WakesIn(step: Step, sid: SessionId) {
    match step
    case ReadRelay(i, _) => i == sid
    case AcceptStream(i) => i == sid
    case Disconnect(i) => i == sid
    case Overgrown(i) => i == sid
    case BindDone(i, _, _) => i == sid
    case _ => false
  }

  lemma OtherStepStays(env: Env, s: State, step: Step, sid: SessionId)
    requires Enabled(env, s, step) && sid in s.clients && Listening(s.clients[sid])
    requires !step.Command? && !step.Data? && !WakesIn(step, sid)
    ensures StaysOn(Next(env, s, step), sid)
  {
  }

  lemma OwnStepEnds(env: Env, s: State, step: Step, sid: SessionId)
    requires Reachable(env, s) && Enabled(env, s, step) && sid in s.clients && WakesIn(step, sid)
    ensures if EndsIt(env, s, step, sid) then Leaves(Next(env, s, step), sid) else StaysOn(Next(env, s, step), sid)
  {
    match step
    case ReadRelay(_, link) => ReadEnds(env, s, sid, link);
    case BindDone(_, l, answered) =>
      ReachableKeeps(env, s);
      BindDoneEnds(env, s, sid, l, answered);
    case AcceptStream(_) =>
    case Disconnect(_) =>
    case Overgrown(_) =>
  }

  /** In every reachable state, whatever step is taken, a session leaves its
      loop exactly for one of those reasons. */
  lemma EndsForAReason(env: Env, s: State, step: Step, sid: SessionId)
    requires Reachable(env, s) && Enabled(env, s, step) && sid in s.clients && Listening(s.clients[sid])
    ensures if EndsIt(env, s, step, sid) then Leaves(Next(env, s, step), sid) else StaysOn(Next(env, s, step), sid)
  {
    if step.Command? {
      if step.sid == sid {
        CommandEnds(env, s, sid, step.raw, step.choice);
      } else {
        OtherCommandStays(env, s, step.sid, step.raw, step.choice, sid);
      }
    } else if step.Data? {
      if step.sid == sid {
        OwnDataEnds(env, s, sid, step.via, step.raw);
      } else {
        OtherDataStays(s, step.sid, step.via, step.raw, sid);
      }
    } else if WakesIn(step, sid) {
      OwnStepEnds(env, s, step, sid);
    } else {
      OtherStepStays(env, s, step, sid);
    }
  }

  // ----- what a session reads -----

  /** The message that a step takes off the relay of `sid`. */
  function ReadBy(s: State, step: Step, sid: SessionId): seq<Bytes> {
    match step
    case ReadRelay(i, _) =>
      if i == sid && sid in s.clients && NextMessage(s.clients[sid]).Some? then [NextMessage(s.clients[sid]).value]
      else []
    case _ => []
  }

  function TakenOf(s: State, sid: SessionId): nat {
    if sid in s.clients then s.clients[sid].taken else 0
  }

  /** A relay is only ever added to, and only reading moves the mark. */
  ghost predicate ReadsOn(s: State, step: Step, t: State, sid: SessionId) {
    && TakenOf(t, sid) == TakenOf(s, sid) + |ReadBy(s, step, sid)|
    && (ReadBy(s, step, sid) != [] ==>
          TakenOf(s, sid) < |Inbox(s, sid)| && ReadBy(s, step, sid) == [Inbox(s, sid)[TakenOf(s, sid)]])
    && Inbox(s, sid) <= Inbox(t, sid)
  }

  lemma DataTaken(s: State, i: SessionId, via: Via, raw: Bytes, sid: SessionId)
    requires i in s.clients
    ensures TakenOf(HandData(s, i, via, raw), sid) == TakenOf(s, sid)
  {
  }

  lemma ServeTaken(env: Env, s: State, i: SessionId, call: Call, choice: Choice, sid: SessionId)
    requires i in s.clients
    ensures TakenOf(Serve(env, s, i, call, choice), sid) == TakenOf(s, sid)
  {
  }

  lemma CommandTaken(env: Env, s: State, i: SessionId, raw: Bytes, choice: Choice, sid: SessionId)
    requires i in s.clients
    ensures TakenOf(RunCommand(env, s, i, raw, choice), sid) == TakenOf(s, sid)
  {
    match PlanFor(env, s.clients[i], i, raw)
    case Ask(call) => ServeTaken(env, s, i, call, choice, sid);
    case _ =>
  }

  lemma OtherTaken(env: Env, s: State, step: Step, sid: SessionId)
    requires Enabled(env, s, step) && !step.Data? && !step.Command? && !TaskTurn(step)
    ensures TakenOf(Next(env, s, step), sid) == TakenOf(s, sid) + |ReadBy(s, step, sid)|
  {
  }

  lemma TurnTaken(env: Env, s: State, step: Step, sid: SessionId)
    requires Enabled(env, s, step) && TaskTurn(step)
    ensures TakenOf(Next(env, s, step), sid) == TakenOf(s, sid)
  {
  }

  lemma StepTaken(env: Env, s: State, step: Step, sid: SessionId)
    requires Enabled(env, s, step)
    ensures TakenOf(Next(env, s, step), sid) == TakenOf(s, sid) + |ReadBy(s, step, sid)|
  {
    if step.Data? {
      DataTaken(s, step.sid, step.via, step.raw, sid);
    } else if step.Command? {
      CommandTaken(env, s, step.sid, step.raw, step.choice, sid);
    } else if TaskTurn(step) {
      TurnTaken(env, s, step, sid);
    } else {
      OtherTaken(env, s, step, sid);
    }
  }

  lemma ReadsEdge(env: Env, trace: seq<State>, steps: seq<Step>, n: nat, sid: SessionId)
    requires IsRun(env, trace, steps) && n < |steps|
    ensures ReadsOn(trace[n], steps[n], trace[n + 1], sid)
  {
    InboxEdge(env, trace, steps, n, sid);
    assert StepAt(env, trace, steps, n);
    StepTaken(env, trace[n], steps[n], sid);
  }

  /** All that a session has taken off its relay in the first `n` steps. */
  function AllRead(trace: seq<State>, steps: seq<Step>, n: nat, sid: SessionId): seq<Bytes>
    requires n <= |steps| && |trace| == |steps| + 1
  {
    if n == 0 then [] else AllRead(trace, steps, n - 1, sid) + ReadBy(trace[n - 1], steps[n - 1], sid)
  }

  ghost predicate ReadSoFar(trace: seq<State>, steps: seq<Step>, n: nat, sid: SessionId) {
    && n < |trace| == |steps| + 1
    && TakenOf(trace[n], sid) <= |Inbox(trace[n], sid)|
    && AllRead(trace, steps, n, sid) == Inbox(trace[n], sid)[..TakenOf(trace[n], sid)]
  }

  lemma PrefixGrows(inbox: seq<Bytes>, inbox': seq<Bytes>, taken: nat, more: seq<Bytes>)
    requires inbox <= inbox' && taken <= |inbox|
    requires more == [] || (taken < |inbox| && more == [inbox[taken]])
    ensures taken + |more| <= |inbox'| && inbox[..taken] + more == inbox'[..taken + |more|]
  {
  }

  lemma ReadEdge(trace: seq<State>, steps: seq<Step>, n: nat, sid: SessionId)
    requires n < |steps| && ReadSoFar(trace, steps, n, sid)
    requires ReadsOn(trace[n], steps[n], trace[n + 1], sid)
    ensures ReadSoFar(trace, steps, n + 1, sid)
  {
    var s, t := trace[n], trace[n + 1];
    PrefixGrows(Inbox(s, sid), Inbox(t, sid), TakenOf(s, sid), ReadBy(s, steps[n], sid));
  }

  /** Over a whole run a session reads the messages on its relay in the order
      they were put there, each once and none passed over. */
  lemma ReadsInQueueOrder(env: Env, trace: seq<State>, steps: seq<Step>, n: nat, sid: SessionId)
    requires IsRun(env, trace, steps) && n < |trace|
    ensures ReadSoFar(trace, steps, n, sid)
  {
    forall k | 0 <= k < n && ReadSoFar(trace, steps, k, sid) ensures ReadSoFar(trace, steps, k + 1, sid) {
      ReadsEdge(env, trace, steps, k, sid);
      ReadEdge(trace, steps, k, sid);
    }
    Along(n, (k: nat) => ReadSoFar(trace, steps, k, sid));
  }
}
