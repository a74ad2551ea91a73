/** What holds over whole runs of the proxy: how long leases and assignments
    last, and how large the table gets. */
module ProxyHistory {
  import opened Wrappers
  import opened BigEndian
  import opened Code
  import opened NetworkState
  import opened Commands
  import opened Proxy
  import opened ProxyInvariant
  import opened ProxyRuns
  import opened ProxySafety

  /** 24 hours in nanoseconds. */
  const DAY: nat := 86_400_000_000_000

  lemma ReachedByRun(env: Env, trace: seq<State>, steps: seq<Step>, i: nat)
    requires IsRun(env, trace, steps) && i < |trace|
    ensures Reachable(env, trace[i])
  {
    var trace', steps' := trace[..i + 1], steps[..i];
    forall j | 0 <= j < |steps'| ensures StepAt(env, trace', steps', j) {
      assert StepAt(env, trace, steps, j);
    }
    assert IsRun(env, trace', steps') && trace'[|steps'|] == trace[i];
  }

  lemma ReachableNext(env: Env, s: State, step: Step)
    requires Reachable(env, s) && Enabled(env, s, step)
    ensures Reachable(env, Next(env, s, step))
  {
    var trace, steps :| IsRun(env, trace, steps) && trace[|steps|] == s;
    var t := Next(env, s, step);
    var trace', steps' := trace + [t], steps + [step];
    forall i | 0 <= i < |steps'| ensures StepAt(env, trace', steps', i) {
      if i < |steps| {
        assert StepAt(env, trace, steps, i);
      }
    }
    assert IsRun(env, trace', steps') && trace'[|steps'|] == t;
  }

  /** What holds at one moment of a run and is kept by each step holds later. */
  lemma {:induction false} Kept(trace: seq<State>, i: nat, j: nat, p: State -> bool)
    requires i <= j < |trace| && p(trace[i])
    requires forall n | i <= n < j :: p(trace[n]) ==> p(trace[n + 1])
    ensures p(trace[j])
  {
    if i < j {
      Kept(trace, i, j - 1, p);
      assert p(trace[j - 1]) ==> p(trace[j - 1 + 1]);
    }
  }

  /** What holds at the start of a run and is kept by each step always holds. */
  lemma {:induction false} Along(n: nat, p: nat -> bool)
    requires p(0) && forall k | 0 <= k < n :: p(k) ==> p(k + 1)
    ensures p(n)
  {
    if n > 0 {
      Along(n - 1, p);
    }
  }

  // ----- leases over time -----

  /** A command leaves every other session as it was. */
  lemma OtherServeStays(env: Env, s: State, i: SessionId, call: Call, choice: Choice, sid: SessionId)
    requires i in s.clients && sid in s.clients && sid != i
    ensures var t := Serve(env, s, i, call, choice);
      sid in t.clients && t.clients[sid] == s.clients[sid]
  {
  }

  ghost predicate LeaseKept(s: State, t: State, l: LeaseId) {
    l in s.tasks ==>
      && l in t.tasks
      && (l in t.leases ==> l in s.leases && t.leases[l] == s.leases[l])
  }

  lemma ServeLease(env: Env, s: State, i: SessionId, call: Call, choice: Choice, l: LeaseId)
    requires i in s.clients && choice.lease !in s.tasks
    ensures LeaseKept(s, Serve(env, s, i, call, choice), l)
  {
  }

  lemma CommandLease(env: Env, s: State, i: SessionId, raw: Bytes, choice: Choice, l: LeaseId)
    requires i in s.clients && choice.lease !in s.tasks
    ensures LeaseKept(s, RunCommand(env, s, i, raw, choice), l)
  {
    match PlanFor(env, s.clients[i], i, raw)
    case Ask(call) => ServeLease(env, s, i, call, choice, l);
    case _ =>
  }

  lemma DataLease(s: State, i: SessionId, via: Via, raw: Bytes, l: LeaseId)
    requires i in s.clients
    ensures LeaseKept(s, HandData(s, i, via, raw), l)
  {
  }

  lemma TurnLease(env: Env, s: State, step: Step, l: LeaseId)
    requires Enabled(env, s, step) && TaskTurn(step)
    ensures LeaseKept(s, Next(env, s, step), l)
  {
  }

  lemma OtherLease(env: Env, s: State, step: Step, l: LeaseId)
    requires Enabled(env, s, step) && !TaskTurn(step) && !step.Command? && !step.Data?
    ensures LeaseKept(s, Next(env, s, step), l)
  {
  }

  /** No step changes a live lease, forgets a task, or gives a new lease the
      name of an old task. */
  lemma LeaseStep(env: Env, s: State, step: Step, l: LeaseId)
    requires Enabled(env, s, step)
    ensures LeaseKept(s, Next(env, s, step), l)
  {
    if TaskTurn(step) {
      TurnLease(env, s, step, l);
    } else if step.Command? {
      CommandLease(env, s, step.sid, step.raw, step.choice, l);
    } else if step.Data? {
      DataLease(s, step.sid, step.via, step.raw, l);
    } else {
      OtherLease(env, s, step, l);
    }
  }

  lemma LeaseEdge(env: Env, trace: seq<State>, steps: seq<Step>, n: nat, l: LeaseId)
    requires IsRun(env, trace, steps) && n < |steps|
    ensures LeaseKept(trace[n], trace[n + 1], l)
  {
    assert StepAt(env, trace, steps, n);
    LeaseStep(env, trace[n], steps[n], l);
  }

  lemma LeaseHasTask(env: Env, trace: seq<State>, steps: seq<Step>, i: nat, l: LeaseId)
    requires IsRun(env, trace, steps) && i < |trace| && l in trace[i].leases
    ensures l in trace[i].tasks
  {
    RunKeeps(env, trace, steps, i);
    assert LeaseServed(trace[i], l);
  }

  /** A lease live at two moments is the same lease, with the same owner and
      port, and has been live all the time between. */
  lemma {:induction false} LeaseFixed(
    env: Env, trace: seq<State>, steps: seq<Step>, i: nat, j: nat, l: LeaseId)
    requires IsRun(env, trace, steps) && i <= j < |trace|
    requires l in trace[i].leases
    ensures l in trace[j].tasks
    ensures l in trace[j].leases ==>
      forall m | i <= m <= j :: l in trace[m].leases && trace[m].leases[l] == trace[i].leases[l]
  {
    if i < j {
      LeaseFixed(env, trace, steps, i, j - 1, l);
      LeaseEdge(env, trace, steps, j - 1, l);
    } else {
      LeaseHasTask(env, trace, steps, i, l);
    }
  }

  /** A task keeps its client and its kind. */
  ghost predicate TaskKept(s: State, t: State, l: LeaseId) {
    l in s.tasks ==>
      && l in t.tasks && t.tasks[l].relay == s.tasks[l].relay
      && t.tasks[l].job.Translating? == s.tasks[l].job.Translating?
  }

  lemma ServeTask(env: Env, s: State, i: SessionId, call: Call, choice: Choice, l: LeaseId)
    requires i in s.clients && choice.lease !in s.tasks
    ensures TaskKept(s, Serve(env, s, i, call, choice), l)
  {
  }

  lemma CommandTask(env: Env, s: State, i: SessionId, raw: Bytes, choice: Choice, l: LeaseId)
    requires i in s.clients && choice.lease !in s.tasks
    ensures TaskKept(s, RunCommand(env, s, i, raw, choice), l)
  {
    match PlanFor(env, s.clients[i], i, raw)
    case Ask(call) => ServeTask(env, s, i, call, choice, l);
    case _ =>
  }

  lemma DataTask(s: State, i: SessionId, via: Via, raw: Bytes, l: LeaseId)
    requires i in s.clients
    ensures TaskKept(s, HandData(s, i, via, raw), l)
  {
  }

  lemma OtherTask(env: Env, s: State, step: Step, l: LeaseId)
    requires Enabled(env, s, step) && !step.Data? && !step.Command?
    ensures TaskKept(s, Next(env, s, step), l)
  {
  }

  lemma TaskStep(env: Env, s: State, step: Step, l: LeaseId)
    requires Enabled(env, s, step)
    ensures TaskKept(s, Next(env, s, step), l)
  {
    if step.Command? {
      CommandTask(env, s, step.sid, step.raw, step.choice, l);
    } else if step.Data? {
      DataTask(s, step.sid, step.via, step.raw, l);
    } else {
      OtherTask(env, s, step, l);
    }
  }

  lemma TaskEdge(env: Env, trace: seq<State>, steps: seq<Step>, n: nat, l: LeaseId)
    requires IsRun(env, trace, steps) && n < |steps|
    ensures TaskKept(trace[n], trace[n + 1], l)
  {
    assert StepAt(env, trace, steps, n);
    TaskStep(env, trace[n], steps[n], l);
  }

  lemma {:induction false} TaskStaysKind(
    env: Env, trace: seq<State>, steps: seq<Step>, i: nat, j: nat, l: LeaseId)
    requires IsRun(env, trace, steps) && i <= j < |trace|
    ensures TaskKept(trace[i], trace[j], l)
  {
    if i < j {
      TaskStaysKind(env, trace, steps, i, j - 1, l);
      TaskEdge(env, trace, steps, j - 1, l);
    }
  }

  /** A session keeps its lease, and once gone it stays gone. */
  ghost predicate StandingKept(s: State, t: State, sid: SessionId) {
    sid in s.clients ==>
      && sid in t.clients
      && (s.clients[sid].lease.Some? ==> t.clients[sid].lease == s.clients[sid].lease || t.clients[sid].phase.Gone?)
      && (s.clients[sid].phase.Gone? ==> t.clients[sid].phase.Gone?)
  }

  lemma ServeStanding(env: Env, s: State, i: SessionId, call: Call, choice: Choice, sid: SessionId)
    requires i in s.clients && s.clients[i].phase.Serving? && s.clients[i].lease.None?
    ensures StandingKept(s, Serve(env, s, i, call, choice), sid)
  {
  }

  lemma CommandStanding(env: Env, s: State, i: SessionId, raw: Bytes, choice: Choice, sid: SessionId)
    requires i in s.clients && s.clients[i].phase.Serving?
    ensures StandingKept(s, RunCommand(env, s, i, raw, choice), sid)
  {
    if s.clients[i].lease.None? {
      match PlanFor(env, s.clients[i], i, raw)
      case Ask(call) => ServeStanding(env, s, i, call, choice, sid);
      case _ =>
    }
  }

  lemma BindDoneStanding(env: Env, s: State, i: SessionId, l: LeaseId, answered: bool, sid: SessionId)
    requires i in s.clients && s.clients[i].phase.Binding? && ClientSound(s.clients[i])
    ensures StandingKept(s, FinishBind(env, s, i, l, answered), sid)
  {
  }

  lemma DataStanding(s: State, i: SessionId, via: Via, raw: Bytes, sid: SessionId)
    requires i in s.clients && s.clients[i].phase.Serving?
    ensures StandingKept(s, HandData(s, i, via, raw), sid)
  {
  }

  lemma TurnStanding(env: Env, s: State, step: Step, sid: SessionId)
    requires Enabled(env, s, step) && TaskTurn(step)
    ensures StandingKept(s, Next(env, s, step), sid)
  {
  }

  lemma OtherStanding(env: Env, s: State, step: Step, sid: SessionId)
    requires Enabled(env, s, step) && !TaskTurn(step) && !step.Command? && !step.Data? && !step.BindDone?
    ensures StandingKept(s, Next(env, s, step), sid)
  {
  }

  lemma StandingStep(env: Env, s: State, step: Step, sid: SessionId)
    requires TokensSound(s) && Enabled(env, s, step)
    ensures StandingKept(s, Next(env, s, step), sid)
  {
    if TaskTurn(step) {
      TurnStanding(env, s, step, sid);
    } else if step.Command? {
      CommandStanding(env, s, step.sid, step.raw, step.choice, sid);
    } else if step.BindDone? {
      assert ClientSound(s.clients[step.sid]);
      BindDoneStanding(env, s, step.sid, step.lease, step.answered, sid);
    } else if step.Data? {
      DataStanding(s, step.sid, step.via, step.raw, sid);
    } else {
      OtherStanding(env, s, step, sid);
    }
  }

  lemma StandingEdge(env: Env, trace: seq<State>, steps: seq<Step>, n: nat, sid: SessionId)
    requires IsRun(env, trace, steps) && n < |steps|
    ensures StandingKept(trace[n], trace[n + 1], sid)
  {
    RunKeeps(env, trace, steps, n);
    assert StepAt(env, trace, steps, n);
    StandingStep(env, trace[n], steps[n], sid);
  }

  /** A session's lease is never replaced: it keeps the first one it gets for
      as long as it lasts. */
  lemma LeaseNeverReplaced(
    env: Env, trace: seq<State>, steps: seq<Step>, i: nat, j: nat, sid: SessionId, l: LeaseId)
    requires IsRun(env, trace, steps) && i <= j < |trace|
    requires sid in trace[i].clients && trace[i].clients[sid].lease == Some(l)
    ensures sid in trace[j].clients
    ensures trace[j].clients[sid].lease == Some(l) || trace[j].clients[sid].phase.Gone?
  {
    forall n | i <= n < j ensures StandingKept(trace[n], trace[n + 1], sid) {
      StandingEdge(env, trace, steps, n, sid);
    }
    Kept(trace, i, j, (s: State) =>
      sid in s.clients && (s.clients[sid].lease == Some(l) || s.clients[sid].phase.Gone?));
  }

  // ----- how long an assignment lasts -----

  ghost predicate Resolves(s: State, passcode: Passcode, address: Ipv6) {
    passcode in s.net.byPasscode && s.net.byPasscode[passcode] == address
  }

  function LastTouched(s: State, address: Ipv6): nat {
    if address in s.net.byAddress then s.net.byAddress[address].touched else 0
  }

  /** A step forgets an assignment only if nothing is bound on it and it has
      not been touched for a day. */
  lemma ResolvesStep(s: State, op: NetOp, t: State, passcode: Passcode, address: Ipv6)
    requires Consistent(s.net) && TouchesSound(s.net, s.touches, s.now) && NetDoes(s, op, t)
    requires Resolves(s, passcode, address)
    requires RoutesOn(s.net, address) != {} || s.now < LastTouched(s, address) + DAY
    ensures Resolves(t, passcode, address) && LastTouched(t, address) >= LastTouched(s, address) && t.now >= s.now
  {
    assert (address, LastTouched(s, address)) in s.touches;
    if op.Assigns? {
      AssignForgetsNot(s.net, op.address, op.passcode, op.later, s.now, passcode, address);
    }
  }

  lemma AssignForgetsNot(
    net: NetState<SessionId>, new': Ipv6, code: Passcode, later: nat, now: nat, passcode: Passcode, address: Ipv6)
    requires Consistent(net) && IsFree(Expired(net, now), new', code)
    requires passcode in net.byPasscode && net.byPasscode[passcode] == address
    requires RoutesOn(net, address) != {} || now < net.byAddress[address].touched + DAY
    ensures var t := Issued(Expired(net, now), new', code, later);
      && passcode in t.byPasscode && t.byPasscode[passcode] == address
      && address in t.byAddress && t.byAddress[address] == net.byAddress[address]
  {
    ExpiredForgetsExactlyStale(net, now, passcode, address);
  }

  /** One step of a run keeps an assignment that is bound or still young. */
  ghost predicate AssignmentKept(s: State, t: State, passcode: Passcode, address: Ipv6) {
    && s.now <= t.now
    && (Resolves(s, passcode, address)
        && (RoutesOn(s.net, address) != {} || s.now < LastTouched(s, address) + DAY) ==>
          Resolves(t, passcode, address) && LastTouched(t, address) >= LastTouched(s, address))
  }

  lemma AssignmentEdge(
    env: Env, trace: seq<State>, steps: seq<Step>, n: nat, passcode: Passcode, address: Ipv6)
    requires IsRun(env, trace, steps) && n < |steps|
    ensures AssignmentKept(trace[n], trace[n + 1], passcode, address)
  {
    RunKeeps(env, trace, steps, n);
    assert StepAt(env, trace, steps, n);
    StepDoes(env, trace[n], steps[n]);
    var op := OpOf(env, trace[n], steps[n]);
    AssignmentStep(trace[n], op, trace[n + 1], passcode, address);
  }

  lemma AssignmentStep(s: State, op: NetOp, t: State, passcode: Passcode, address: Ipv6)
    requires Consistent(s.net) && TouchesSound(s.net, s.touches, s.now) && NetDoes(s, op, t)
    ensures AssignmentKept(s, t, passcode, address)
  {
    if Resolves(s, passcode, address)
      && (RoutesOn(s.net, address) != {} || s.now < LastTouched(s, address) + DAY)
    {
      ResolvesStep(s, op, t, passcode, address);
    }
  }

  /** An assignment touched less than the retention time ago still resolves
      from its passcode to the same address. */
  lemma {:induction false} ResolvesForADay(
    env: Env, trace: seq<State>, steps: seq<Step>, i: nat, j: nat, passcode: Passcode, address: Ipv6)
    requires IsRun(env, trace, steps) && i <= j < |trace|
    requires Resolves(trace[i], passcode, address)
    requires trace[j].now < LastTouched(trace[i], address) + DAY
    ensures Resolves(trace[j], passcode, address)
    ensures LastTouched(trace[j], address) >= LastTouched(trace[i], address)
  {
    if i < j {
      AssignmentEdge(env, trace, steps, j - 1, passcode, address);
      ResolvesForADay(env, trace, steps, i, j - 1, passcode, address);
    }
  }

  lemma LeaseRoutes(env: Env, trace: seq<State>, steps: seq<Step>, n: nat, l: LeaseId, key: RouteKey)
    requires IsRun(env, trace, steps) && n < |trace|
    requires l in trace[n].leases && trace[n].leases[l].key == Some(key)
    ensures key in RoutesOn(trace[n].net, key.address)
  {
    RunKeeps(env, trace, steps, n);
    TokenClaims(trace[n], Held(l), key);
  }

  /** An assignment with a port bound on it resolves for as long as the port
      stays bound, however long that is. */
  lemma {:induction false} ResolvesWhileBound(
    env: Env, trace: seq<State>, steps: seq<Step>, i: nat, j: nat, l: LeaseId, key: RouteKey, passcode: Passcode)
    requires IsRun(env, trace, steps) && i <= j < |trace|
    requires l in trace[i].leases && trace[i].leases[l].key == Some(key) && l in trace[j].leases
    requires Resolves(trace[i], passcode, key.address)
    ensures Resolves(trace[j], passcode, key.address)
  {
    if i < j {
      LeaseFixed(env, trace, steps, i, j, l);
      ResolvesWhileBound(env, trace, steps, i, j - 1, l, key, passcode);
      LeaseRoutes(env, trace, steps, j - 1, l, key);
      AssignmentEdge(env, trace, steps, j - 1, passcode, key.address);
    }
  }

  /** Binding or releasing a port starts its address's retention time afresh. */
  lemma PortTouches(s: State, op: NetOp, t: State, passcode: Passcode, key: RouteKey)
    requires Consistent(s.net) && NetDoes(s, op, t) && Resolves(s, passcode, key.address)
    requires op.Binds? || op.Unbinds?
    requires key == op.key
    ensures Resolves(t, passcode, key.address) && LastTouched(t, key.address) == s.now
  {
    if op.Unbinds? {
      UnbindOutcome(s.net, key, s.now);
    }
  }

  /** The step binds or releases the port. */
  ghost predicate MovesPort(env: Env, s: State, step: Step, key: RouteKey) {
    var op := OpOf(env, s, step);
    (op.Binds? || op.Unbinds?) && op.key == key
  }

  lemma PortTouchesEdge(
    env: Env, trace: seq<State>, steps: seq<Step>, n: nat, passcode: Passcode, key: RouteKey)
    requires IsRun(env, trace, steps) && n < |steps|
    requires Resolves(trace[n], passcode, key.address) && MovesPort(env, trace[n], steps[n], key)
    ensures Resolves(trace[n + 1], passcode, key.address)
    ensures LastTouched(trace[n + 1], key.address) == trace[n].now
  {
    RunKeeps(env, trace, steps, n);
    assert StepAt(env, trace, steps, n);
    StepDoes(env, trace[n], steps[n]);
    PortTouches(trace[n], OpOf(env, trace[n], steps[n]), trace[n + 1], passcode, key);
  }

  /** Counting from the moment a port is bound or released, the passcode of its
      address still resolves for a day. */
  lemma ResolvesForADayAfterRelease(
    env: Env, trace: seq<State>, steps: seq<Step>, i: nat, j: nat, passcode: Passcode, key: RouteKey)
    requires IsRun(env, trace, steps) && i < j < |trace|
    requires Resolves(trace[i], passcode, key.address)
    requires MovesPort(env, trace[i], steps[i], key)
    requires trace[j].now < trace[i].now + DAY
    ensures Resolves(trace[j], passcode, key.address)
  {
    PortTouchesEdge(env, trace, steps, i, passcode, key);
    ResolvesForADay(env, trace, steps, i + 1, j, passcode, key.address);
  }

  // ----- how large the table gets -----

  /** How many of the touches on record happened less than the retention time
      before `now`. */
  function Recent(touches: seq<(Ipv6, nat)>, now: nat): nat {
    if touches == [] then 0
    else
      Recent(touches[..|touches| - 1], now)
        + if now < touches[|touches| - 1].1 + DAY then 1 else 0
  }

  ghost predicate RecentlyTouched(touches: seq<(Ipv6, nat)>, now: nat, a: Ipv6) {
    exists j | 0 <= j < |touches| :: touches[j].0 == a && now < touches[j].1 + DAY
  }

  lemma {:induction false} RecentBound(touches: seq<(Ipv6, nat)>, now: nat, addresses: set<Ipv6>)
    requires forall a | a in addresses :: RecentlyTouched(touches, now, a)
    ensures |addresses| <= Recent(touches, now)
  {
    if touches == [] {
      assert addresses == {};
    } else {
      var n := |touches| - 1;
      var rest := if now < touches[n].1 + DAY then addresses - {touches[n].0} else addresses;
      forall a | a in rest ensures RecentlyTouched(touches[..n], now, a) {
        var j :| 0 <= j < |touches| && touches[j].0 == a && now < touches[j].1 + DAY;
        assert touches[..n][j] == touches[j];
      }
      RecentBound(touches[..n], now, rest);
    }
  }

  function BoundAddresses(s: State): set<Ipv6> {
    set k | k in s.net.routes :: k.address
  }

  /** An assignment that expiry spares has a port bound on it or was touched
      within the retention time. */
  lemma SparedIsFresh(net: NetState<SessionId>, now: nat, a: Ipv6)
    requires RoutesCounted(net) && a in Expired(net, now).byAddress
    ensures RoutesOn(net, a) != {} || now < net.byAddress[a].touched + DAY
  {
  }

  /** Right after an address is handed out, every entry of the table has a
      port bound on it or was touched within the retention time. */
  lemma TableIsFresh(s: State, op: NetOp, t: State, a: Ipv6)
    requires RoutesCounted(s.net) && TouchesSound(s.net, s.touches, s.now) && NetDoes(s, op, t) && op.Assigns?
    requires a in t.net.byAddress
    ensures a in BoundAddresses(t) || RecentlyTouched(t.touches, s.now, a)
  {
    if a == op.address {
      assert t.touches[|s.touches|] == (a, op.later);
    } else {
      SparedIsFresh(s.net, s.now, a);
      if RoutesOn(s.net, a) != {} {
        var k :| k in RoutesOn(s.net, a);
        assert k in t.net.routes && k.address == a;
      } else {
        var j :| 0 <= j < |s.touches| && s.touches[j] == (a, s.net.byAddress[a].touched);
        assert t.touches[j] == s.touches[j];
      }
    }
  }

  /** So the table is no larger than the number of addresses with a port bound
      plus the number of assigns, binds and unbinds within the retention time,
      however many there were before. */
  lemma TableBounded(env: Env, s: State, step: Step)
    requires Reachable(env, s) && Enabled(env, s, step) && OpOf(env, s, step).Assigns?
    ensures var t := Next(env, s, step);
      |t.net.byAddress| <= |BoundAddresses(t)| + Recent(t.touches, s.now)
  {
    ReachableKeeps(env, s);
    StepDoes(env, s, step);
    var t := Next(env, s, step);
    var idle := t.net.byAddress.Keys - BoundAddresses(t);
    forall a | a in idle ensures RecentlyTouched(t.touches, s.now, a) {
      TableIsFresh(s, OpOf(env, s, step), t, a);
    }
    RecentBound(t.touches, s.now, idle);
    SubsetSize(t.net.byAddress.Keys, BoundAddresses(t) + idle);
  }
}
