/**
 The self-healing VPN listeners of the control center as a system of threads.

 Three servers (terminal, VNC, H.264) each own a running flag, a published server
 pointer and at most one tracked VPN listener. Start, stop and the supervisor run
 concurrently; `ccVPNMu` is `lock`. Every thread is a program counter, and every
 load, store or external call that another thread can observe is one step, so an
 attach holds the lock across several steps while a stop clears the running flag
 and the advertised port before it ever takes the lock.

 External answers (is the network up, did the bind succeed, did the server start)
 come in with the step, so all of them are covered.
 */
module VpnListeners {
  import opened Prelude

  datatype Svc = Terminal | Vnc | H264

  type Tid = nat
  type Srv = nat
  type Lid = nat

  const VNC_PORT := 5900

  /**
   Where an attach helper stands. Every phase but `Lock` holds the mutex. `replaced` remembers
   the listener given up before the bind; the code keeps no such variable.
   */
  datatype Phase =
    | Lock
    | LoadServer
    | LoadRunning(server: Option<Srv>)
    | Health(srv: Srv)
    | ClearPort(srv: Srv)
    | Connected(srv: Srv)
    | CloseOld(srv: Srv)
    | RemoveOld(srv: Srv)
    | Untrack(srv: Srv)
    | Bind(srv: Srv, replaced: Option<Lid>)
    | BindFailed
    | Add(srv: Srv, l: Lid)
    | Track(l: Lid)
    | SetPort
    | Unlock

  /** The next action of a thread. `sup` says that the supervisor called the attach helper. */
  datatype Pc =
    | Done
    | StartLoad(svc: Svc)
    | StartBuild(svc: Svc)
    | StartPublish(svc: Svc, srv: Srv)
    | StartFlag(svc: Svc)
    | Attach(svc: Svc, phase: Phase, sup: bool)
    | StopLoad(svc: Svc)
    | StopServer(svc: Svc)
    | StopClosing(svc: Svc, srv: Srv)
    | StopFlag(svc: Svc)
    | StopPort
    | StopLock(svc: Svc)
    | StopReset(svc: Svc)
    | StopUnlock(svc: Svc)
    | SupTick(wasConnected: bool)
    | SupLock
    | SupHealth(svc: Svc)
    | SupUnlock(healthy: bool)
    | SupCheck(svc: Svc)

  /**
   `bound` remembers every VPN listener ever bound and for which service. A listener is
   `closed` once we call Close on it, `torn` once tsnet tore its binding down, `dead` once
   its accept loop recorded that; `marking` holds the accept loops that have already seen
   the closed flag unset and will store `dead` next.
   */
  datatype State = State(
    pcs: map<Tid, Pc>,
    lock: Option<Tid>,
    server: map<Svc, Srv>,
    owner: map<Srv, Svc>,
    extras: map<Srv, set<Lid>>,
    running: set<Svc>,
    tracked: map<Svc, Lid>,
    port: int,
    bound: map<Lid, Svc>,
    closed: set<Lid>,
    torn: set<Lid>,
    marking: set<Lid>,
    dead: set<Lid>)

  /** `ok` is the answer of the external call of the step, `id` the identity it hands out. */
  datatype Step =
    | Spawn(t: Tid, pc: Pc)
    | Run(t: Tid, ok: bool, id: nat)
    | TearDown(l: Lid)
    | AcceptObserve(l: Lid)
    | AcceptMark(l: Lid)

  predicate Init(s: State) {
    s == State(map[], None, map[], map[], map[], {}, map[], 0, map[], {}, {}, {}, {})
  }

  /** A listener the health predicates accept: tracked, and not recorded dead. */
  predicate Live(s: State, svc: Svc) {
    svc in s.tracked && s.tracked[svc] !in s.dead
  }

  predicate EntryPoint(pc: Pc) {
    pc.StartLoad? || pc.StopLoad? || pc.SupTick?
  }

  predicate Enabled(s: State, st: Step) {
    match st
    case Spawn(t, pc) => t !in s.pcs && EntryPoint(pc)
    case Run(t, ok, id) =>
      t in s.pcs && !s.pcs[t].Done? &&
      (WantsLock(s.pcs[t]) ==> s.lock.None?) &&
      (s.pcs[t].StartBuild? && ok ==> id !in s.owner) &&
      (s.pcs[t].StopClosing? && ok ==> s.pcs[t].srv in s.extras && id in s.extras[s.pcs[t].srv]) &&
      (s.pcs[t].Attach? && s.pcs[t].phase.Bind? && ok ==> id !in s.bound)
    case TearDown(l) => l in s.bound
    // Accept returns net.ErrClosed because the binding is gone, and loads the closed flag as unset.
    case AcceptObserve(l) => l in s.torn && l !in s.closed
    case AcceptMark(l) => l in s.marking
  }

  predicate WantsLock(pc: Pc) {
    pc.SupLock? || pc.StopLock? || (pc.Attach? && pc.phase.Lock?)
  }

  function Do(s: State, st: Step): State
    requires Enabled(s, st)
  {
    match st
    case Spawn(t, pc) => s.(pcs := s.pcs[t := pc])
    case Run(t, ok, id) => Effect(s, t, s.pcs[t], ok, id).(pcs := s.pcs[t := Next(s, s.pcs[t], ok, id)])
    case TearDown(l) => s.(torn := s.torn + {l})
    case AcceptObserve(l) => s.(marking := s.marking + {l})
    case AcceptMark(l) => s.(dead := s.dead + {l}, marking := s.marking - {l})
  }

  /** The control flow of one step: where the thread stands afterwards. */
  function Next(s: State, pc: Pc, ok: bool, id: nat): Pc {
    match pc
    case Done => Done
    case StartLoad(svc) => if svc in s.running then Done else StartBuild(svc)
    case StartBuild(svc) => if ok then StartPublish(svc, id) else Done
    case StartPublish(svc, srv) => StartFlag(svc)
    case StartFlag(svc) => Attach(svc, Lock, false)
    case StopLoad(svc) => if svc in s.running then StopServer(svc) else Done
    case StopServer(svc) => if svc in s.server then StopClosing(svc, s.server[svc]) else StopFlag(svc)
    case StopClosing(svc, srv) => if ok then pc else StopFlag(svc)
    case StopFlag(svc) => if svc == Vnc then StopPort else StopLock(svc)
    case StopPort => StopLock(Vnc)
    case StopLock(svc) => StopReset(svc)
    case StopReset(svc) => StopUnlock(svc)
    case StopUnlock(svc) => Done
    case SupTick(wasConnected) => if !ok then SupTick(false) else if wasConnected then SupLock else SupCheck(Terminal)
    case SupLock => SupHealth(Terminal)
    case SupHealth(svc) => if svc in s.running && !Live(s, svc) then SupUnlock(false) else AfterHealthy(svc)
    case SupUnlock(healthy) => if healthy then SupTick(true) else SupCheck(Terminal)
    case SupCheck(svc) => if svc in s.running then Attach(svc, Lock, true) else AfterCheck(svc)
    case Attach(svc, phase, sup) =>
      if phase.Unlock? then (if sup then AfterCheck(svc) else Done)
      else Attach(svc, NextPhase(s, svc, phase, ok, id), sup)
  }

  function AfterHealthy(svc: Svc): Pc {
    match svc
    case Terminal => SupHealth(Vnc)
    case Vnc => SupHealth(H264)
    case H264 => SupUnlock(true)
  }

  function AfterCheck(svc: Svc): Pc {
    match svc
    case Terminal => SupCheck(Vnc)
    case Vnc => SupCheck(H264)
    case H264 => SupTick(true)
  }

  function NextPhase(s: State, svc: Svc, phase: Phase, ok: bool, id: nat): Phase {
    match phase
    case Lock => LoadServer
    case LoadServer => LoadRunning(if svc in s.server then Some(s.server[svc]) else None)
    case LoadRunning(server) => if svc !in s.running || server.None? then Unlock else Health(server.value)
    case Health(srv) =>
      if Live(s, svc) then (if svc == Vnc then SetPort else Unlock)
      else (if svc == Vnc then ClearPort(srv) else Connected(srv))
    case ClearPort(srv) => Connected(srv)
    case Connected(srv) => if !ok then Unlock else if svc in s.tracked then CloseOld(srv) else Bind(srv, None)
    case CloseOld(srv) => RemoveOld(srv)
    case RemoveOld(srv) => Untrack(srv)
    case Untrack(srv) => Bind(srv, if svc in s.tracked then Some(s.tracked[svc]) else None)
    case Bind(srv, replaced) => if ok then Add(srv, id) else if svc == Vnc then BindFailed else Unlock
    case BindFailed => Unlock
    case Add(srv, l) => Track(l)
    case Track(l) => if svc == Vnc then SetPort else Unlock
    case SetPort => Unlock
    case Unlock => Unlock
  }

  /** The shared-memory effect of one step; loads and external calls have none. */
  function Effect(s: State, t: Tid, pc: Pc, ok: bool, id: nat): State {
    match pc
    case StartBuild(svc) => if ok then s.(owner := s.owner[id := svc], extras := s.extras[id := {}]) else s
    case StartPublish(svc, srv) => s.(server := s.server[svc := srv])
    case StartFlag(svc) => s.(running := s.running + {svc})
    // The server's own Stop closes its listeners one after another.
    case StopClosing(svc, srv) => if ok then s.(closed := s.closed + {id}) else s
    case StopFlag(svc) => s.(running := s.running - {svc})
    case StopPort => s.(port := 0)
    case StopLock(svc) => s.(lock := Some(t))
    case StopReset(svc) =>
      if svc in s.tracked then s.(closed := s.closed + {s.tracked[svc]}, tracked := s.tracked - {svc}) else s
    case StopUnlock(svc) => s.(lock := None)
    case SupLock => s.(lock := Some(t))
    case SupUnlock(healthy) => s.(lock := None)
    case Attach(svc, phase, sup) => PhaseEffect(s, t, svc, phase, ok, id)
    case _ => s
  }

  function PhaseEffect(s: State, t: Tid, svc: Svc, phase: Phase, ok: bool, id: nat): State {
    match phase
    case Lock => s.(lock := Some(t))
    case ClearPort(srv) => s.(port := 0)
    case CloseOld(srv) => if svc in s.tracked then s.(closed := s.closed + {s.tracked[svc]}) else s
    case RemoveOld(srv) =>
      if svc in s.tracked && srv in s.extras
      then s.(extras := s.extras[srv := s.extras[srv] - {s.tracked[svc]}]) else s
    case Untrack(srv) => s.(tracked := s.tracked - {svc})
    case Bind(srv, replaced) => if ok then s.(bound := s.bound[id := svc]) else s
    case BindFailed => s.(port := 0)
    case Add(srv, l) => if srv in s.extras then s.(extras := s.extras[srv := s.extras[srv] + {l}]) else s
    case Track(l) => s.(tracked := s.tracked[svc := l])
    case SetPort => s.(port := VNC_PORT)
    case Unlock => s.(lock := None)
    case _ => s
  }

  predicate StepOk(states: seq<State>, steps: seq<Step>, i: nat)
    requires i < |steps| && |states| == |steps| + 1
  {
    Enabled(states[i], steps[i]) && states[i + 1] == Do(states[i], steps[i])
  }

  /** A run: a state sequence in which every state follows from the one before by an enabled step. */
  ghost predicate IsRun(states: seq<State>, steps: seq<Step>) {
    && |states| == |steps| + 1
    && forall i :: 0 <= i < |steps| ==> StepOk(states, steps, i)
  }
}
