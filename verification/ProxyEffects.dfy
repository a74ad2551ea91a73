/** What a step changes and what it leaves alone, in every reachable state. */
module ProxyEffects {
  import opened Wrappers
  import opened BigEndian
  import opened Commands
  import opened Session
  import opened Proxy
  import opened ProxyInvariant
  import opened ProxySessions
  import opened ProxyRuns
  import opened ProxySafety
  import opened ProxyRelays
  import opened ProxyLives

  // ----- other sessions -----

  /** The session that takes the step, if it is not a task. */
  function TakenIn(step: Step): Option<SessionId> {
    match step
    case Open(sid, _) => Some(sid)
    case AcceptStream(sid) => Some(sid)
    case Command(sid, _, _) => Some(sid)
    case Buffer(sid, _) => Some(sid)
    case Overgrown(sid) => Some(sid)
    case BindDone(sid, _, _) => Some(sid)
    case Data(sid, _, _) => Some(sid)
    case ReadRelay(sid, _) => Some(sid)
    case Disconnect(sid) => Some(sid)
    case DropSession(sid) => Some(sid)
    case _ => None
  }

  /** Nothing about the session has changed, but perhaps what is on its relay. */
  ghost predicate LeftAlone(s: State, t: State, i: SessionId) {
    && i in s.clients && i in t.clients
    && t.clients[i] == s.clients[i].(inbox := t.clients[i].inbox)
    && BufOf(t, i) == BufOf(s, i)
  }

  lemma ServeLeaves(env: Env, s: State, sid: SessionId, call: Call, choice: Choice, i: SessionId)
    requires sid in s.clients && i in s.clients && i != sid
    ensures LeftAlone(s, Serve(env, s, sid, call, choice), i)
  {
  }

  lemma CommandLeaves(env: Env, s: State, sid: SessionId, raw: Bytes, choice: Choice, i: SessionId)
    requires sid in s.clients && i in s.clients && i != sid
    ensures LeftAlone(s, RunCommand(env, s, sid, raw, choice), i)
  {
    match PlanFor(env, s.clients[sid], sid, raw)
    case Ask(call) => ServeLeaves(env, s, sid, call, choice, i);
    case _ =>
  }

  lemma LineTakenLeaves(s: State, t: State, sid: SessionId, raw: Bytes, i: SessionId)
    requires LeftAlone(s, t, i) && i != sid
    ensures LeftAlone(s, t.(bufs := LineTaken(s, sid, raw)), i)
  {
  }

  lemma DataLeaves(s: State, sid: SessionId, via: Via, raw: Bytes, i: SessionId)
    requires sid in s.clients && i in s.clients && i != sid
    ensures LeftAlone(s, HandData(s, sid, via, raw).(bufs := s.bufs), i)
  {
  }

  lemma TurnLeaves(env: Env, s: State, step: Step, i: SessionId)
    requires Enabled(env, s, step) && TaskTurn(step) && i in s.clients
    ensures LeftAlone(s, Next(env, s, step), i)
  {
  }

  lemma BindLeaves(env: Env, s: State, sid: SessionId, l: LeaseId, answered: bool, i: SessionId)
    requires sid in s.clients && s.clients[sid].phase.Binding? && i in s.clients && i != sid
    ensures LeftAlone(s, FinishBind(env, s, sid, l, answered), i)
  {
  }

  lemma RestLeaves(env: Env, s: State, step: Step, i: SessionId)
    requires Enabled(env, s, step) && !TaskTurn(step) && !step.Command? && !step.Data? && !step.BindDone?
    requires i in s.clients && TakenIn(step) != Some(i)
    ensures LeftAlone(s, Next(env, s, step), i)
  {
  }

  /** No step of one session, of a task or of the clock changes another session:
      it puts at most one message on that session's relay, and only in the ways
      of `ProxyRelays.Origin`. */
  lemma OthersUntouched(env: Env, s: State, step: Step, i: SessionId)
    requires Reachable(env, s) && Enabled(env, s, step) && i in s.clients && TakenIn(step) != Some(i)
    ensures LeftAlone(s, Next(env, s, step), i) && PutsAtMostOne(s, step, Next(env, s, step), i)
  {
    ReachableKeeps(env, s);
    StepInbox(env, s, step, i);
    if TaskTurn(step) {
      TurnLeaves(env, s, step, i);
    } else if step.Command? {
      CommandLeaves(env, s, step.sid, step.raw, step.choice, i);
      LineTakenLeaves(s, RunCommand(env, s, step.sid, step.raw, step.choice), step.sid, step.raw, i);
    } else if step.Data? {
      DataLeaves(s, step.sid, step.via, step.raw, i);
    } else if step.BindDone? {
      BindLeaves(env, s, step.sid, step.lease, step.answered, i);
    } else {
      RestLeaves(env, s, step, i);
    }
  }

  // ----- the clock -----

  lemma ServeTime(env: Env, s: State, sid: SessionId, call: Call, choice: Choice)
    requires sid in s.clients
    ensures Serve(env, s, sid, call, choice).now == if call.NewAddress? then choice.later else s.now
  {
  }

  lemma CommandTime(env: Env, s: State, sid: SessionId, raw: Bytes, choice: Choice)
    requires sid in s.clients
    ensures RunCommand(env, s, sid, raw, choice).now
      == if s.clients[sid].lease.None? && IsLine(raw, ["NEWADDR"]) then choice.later else s.now
  {
    var plan := PlanFor(env, s.clients[sid], sid, raw);
    NewAddressLineReads(env.ip, raw, if s.clients[sid].relayTx then Some(sid) else None);
    match plan
    case Ask(call) => ServeTime(env, s, sid, call, choice);
    case _ =>
  }

  lemma DataTime(s: State, sid: SessionId, via: Via, raw: Bytes)
    requires sid in s.clients
    ensures HandData(s, sid, via, raw).now == s.now
  {
  }

  lemma RestTime(env: Env, s: State, step: Step)
    requires Enabled(env, s, step) && !step.Command? && !step.Data?
    ensures Next(env, s, step).now == if step.Tick? then step.later else s.now
  {
  }

  /** Time passes by itself, and while an address is drawn and handed out. */
  lemma ClockMoves(env: Env, s: State, step: Step)
    requires Enabled(env, s, step)
    ensures Next(env, s, step).now ==
      match step
      case Tick(later) => later
      case Command(sid, raw, choice) =>
        if s.clients[sid].lease.None? && IsLine(raw, ["NEWADDR"]) then choice.later else s.now
      case _ => s.now
  {
    if step.Command? {
      CommandTime(env, s, step.sid, step.raw, step.choice);
    } else if step.Data? {
      DataTime(s, step.sid, step.via, step.raw);
    } else {
      RestTime(env, s, step);
    }
  }

  // ----- a session's own steps -----

  /** Reading takes the next message off the relay, if there is one, ends the
      session exactly if that is fatal, and changes nothing else. */
  lemma ReadIsExact(env: Env, s: State, sid: SessionId, link: Link)
    requires Reachable(env, s) && Enabled(env, s, ReadRelay(sid, link))
    ensures var c := s.clients[sid];
      Next(env, s, ReadRelay(sid, link))
      == s.(clients := s.clients[sid := c.(
           taken := if c.taken < |c.inbox| then c.taken + 1 else c.taken,
           phase := if MessageIsFatal(c, link) then Ending else Serving)])
  {
    ReadGoesOn(env, s, sid, link);
    ReadShape(s, sid, link);
  }

  lemma ReadShape(s: State, sid: SessionId, link: Link)
    requires sid in s.clients && s.clients[sid].phase.Serving?
    ensures var c := s.clients[sid];
      var goes := GoesOn(OnRelayMessage(s, c, NextMessage(c)), Content(NextMessage(c)), link);
      Read(s, sid, link)
      == s.(clients := s.clients[sid := c.(
           taken := if c.taken < |c.inbox| then c.taken + 1 else c.taken,
           phase := if goes then Serving else Ending)])
  {
  }

  lemma ReadGoesOn(env: Env, s: State, sid: SessionId, link: Link)
    requires Reachable(env, s) && sid in s.clients && s.clients[sid].phase.Serving?
    ensures var c := s.clients[sid];
      GoesOn(OnRelayMessage(s, c, NextMessage(c)), Content(NextMessage(c)), link) <==> !MessageIsFatal(c, link)
  {
    if NextMessage(s.clients[sid]).Some? {
      RelayMessageFate(env, s, sid, link);
    }
  }

  lemma FatalDataFails(env: Env, s: State, sid: SessionId, via: Via, raw: Bytes)
    requires Reachable(env, s) && Enabled(env, s, Data(sid, via, raw)) && DataIsFatal(s, s.clients[sid], via, raw)
    ensures HandData(s, sid, via, raw) == End(s, sid)
  {
    var lease := s.clients[sid].lease;
    if lease.Some? {
      SendTakes(env, s, sid, lease.value, raw);
    }
  }

  /** Data that is fatal ends its session and reaches nobody; a datagram of a
      session without a lease is dropped. */
  lemma RefusedData(env: Env, s: State, sid: SessionId, via: Via, raw: Bytes)
    requires Reachable(env, s) && Enabled(env, s, Data(sid, via, raw))
    ensures DataIsFatal(s, s.clients[sid], via, raw) ==>
      Next(env, s, Data(sid, via, raw)) == s.(
        clients := s.clients[sid := s.clients[sid].(phase := Ending)],
        bufs := if via.StreamChunk? then s.bufs[sid := []] else s.bufs)
    ensures via.DatagramMessage? && s.clients[sid].lease.None? ==> Next(env, s, Data(sid, via, raw)) == s
  {
    if DataIsFatal(s, s.clients[sid], via, raw) {
      FatalDataFails(env, s, sid, via, raw);
    }
  }

  /** Data for a live service link is handed to its task, whole, and changes
      nothing else but that it is off the buffer. */
  lemma ServiceDataIsGiven(env: Env, s: State, sid: SessionId, via: Via, raw: Bytes, l: LeaseId)
    requires Reachable(env, s) && Enabled(env, s, Data(sid, via, raw)) && !via.DatagramMessage?
    requires s.clients[sid].lease == Some(l) && l in s.leases && s.leases[l].key.None? && AtWork(s, l)
    ensures GivenOneMore(s, Next(env, s, Data(sid, via, raw)).(bufs := s.bufs), l, raw)
    ensures Next(env, s, Data(sid, via, raw)).bufs == if via.StreamChunk? then s.bufs[sid := []] else s.bufs
  {
    ServiceTakesWhileLive(env, s, sid, l, raw);
    ReachableKeeps(env, s);
    assert HolderSound(s, sid);
  }

  /** A session that leaves its loop keeps all it has until it is dropped. Then
      its relay sender and its lease go, with the route if the lease is a bound
      port, and nothing else does. */
  lemma DropIsExact(env: Env, s: State, sid: SessionId)
    requires Reachable(env, s) && Enabled(env, s, DropSession(sid))
    ensures var c, t := s.clients[sid], Next(env, s, DropSession(sid));
      && t == s.(
           clients := s.clients[sid := c.(phase := Gone, relayTx := false, lease := None, relayUdp := false)],
           leases := if c.lease.Some? then s.leases - {c.lease.value} else s.leases,
           net := t.net, touches := t.touches)
      && match Claimed(s, sid)
         case None => t.net == s.net && t.touches == s.touches
         case Some(k) =>
           && k in s.net.routes && s.net.routes[k] == sid && OneBindLess(s.net, t.net, k)
           && t.touches == s.touches + [(k.address, s.now)]
  {
    ReachableKeeps(env, s);
    DropShape(s, sid);
    DropReleases(s, sid);
    assert HolderSound(s, sid);
    if Claimed(s, sid).Some? {
      DropReleasesOwnRoute(env, s, sid, Claimed(s, sid).value);
    }
  }
}
