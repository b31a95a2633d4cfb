/** What the self-heal cannot reach: a flag stored after the check, and a port stored after the clear. */
module VpnPort {
  import opened Prelude
  import opened VpnListeners
  import opened VpnInvariant
  import opened VpnTheorems

  // ---- a start that comes too late for the tick ----

  /** The start `u` of VNC has stored its flag. */
  function Flagged(s: State, u: Tid): State {
    s.(running := s.running + {Vnc}, pcs := s.pcs[u := Attach(Vnc, Lock, false)])
  }

  /** A tick over healthy listeners during which a start stores the VNC flag after the last check. */
  function LateFlagStates(s: State, t: Tid, u: Tid): seq<State> {
    [s, SupAt(s, t, None, SupLock), SupAt(s, t, Some(t), SupHealth(Terminal)), SupAt(s, t, Some(t), SupHealth(Vnc)),
     SupAt(s, t, Some(t), SupHealth(H264)), SupAt(s, t, Some(t), SupUnlock(true)),
     SupAt(Flagged(s, u), t, Some(t), SupUnlock(true)), SupAt(Flagged(s, u), t, None, SupTick(true))]
  }

  function LateFlagSteps(t: Tid, u: Tid): seq<Step> {
    var run := Run(t, true, 0);
    [run, run, run, run, run, Run(u, true, 0), run]
  }

  lemma {:induction false} LateFlagPolls(s: State, t: Tid, u: Tid)
    requires s.lock.None? && t in s.pcs && s.pcs[t] == SupTick(true)
    ensures var states, steps := LateFlagStates(s, t, u), LateFlagSteps(t, u);
            StepOk(states, steps, 0) && StepOk(states, steps, 1)
  {
    var states, steps := LateFlagStates(s, t, u), LateFlagSteps(t, u);
    assert s.pcs[t := SupTick(true)] == s.pcs;
    SupStepAt(states, steps, 0, s, t, None, SupTick(true), None, SupLock);
    SupStepAt(states, steps, 1, s, t, None, SupLock, Some(t), SupHealth(Terminal));
  }

  lemma {:induction false} LateFlagChecks(s: State, t: Tid, u: Tid)
    requires AllHealthy(s)
    ensures var states, steps := LateFlagStates(s, t, u), LateFlagSteps(t, u);
            StepOk(states, steps, 2) && StepOk(states, steps, 3)
  {
    var states, steps := LateFlagStates(s, t, u), LateFlagSteps(t, u);
    SupStepAt(states, steps, 2, s, t, Some(t), SupHealth(Terminal), Some(t), SupHealth(Vnc));
    SupStepAt(states, steps, 3, s, t, Some(t), SupHealth(Vnc), Some(t), SupHealth(H264));
  }

  lemma {:induction false} LateFlagStores(s: State, t: Tid, u: Tid)
    requires u != t && u in s.pcs && s.pcs[u] == StartFlag(Vnc)
    ensures var states, steps := LateFlagStates(s, t, u), LateFlagSteps(t, u); StepOk(states, steps, 5)
  {
    var a := SupAt(s, t, Some(t), SupUnlock(true));
    assert a.pcs[u := Attach(Vnc, Lock, false)] == Flagged(s, u).pcs[t := SupUnlock(true)];
  }

  lemma {:induction false} LateFlagEnds(s: State, t: Tid, u: Tid)
    requires AllHealthy(s)
    ensures var states, steps := LateFlagStates(s, t, u), LateFlagSteps(t, u);
            StepOk(states, steps, 4) && StepOk(states, steps, 6)
  {
    var states, steps := LateFlagStates(s, t, u), LateFlagSteps(t, u);
    SupStepAt(states, steps, 4, s, t, Some(t), SupHealth(H264), Some(t), SupUnlock(true));
    SupStepAt(states, steps, 6, Flagged(s, u), t, Some(t), SupUnlock(true), None, SupTick(true));
  }

  lemma {:induction false} LateFlagRuns(s: State, t: Tid, u: Tid)
    requires AllHealthy(s) && s.lock.None? && t in s.pcs && s.pcs[t] == SupTick(true)
    requires u != t && u in s.pcs && s.pcs[u] == StartFlag(Vnc)
    ensures IsRun(LateFlagStates(s, t, u), LateFlagSteps(t, u))
  {
    LateFlagPolls(s, t, u);
    LateFlagChecks(s, t, u);
    LateFlagStores(s, t, u);
    LateFlagEnds(s, t, u);
    forall i | 0 <= i < 7 ensures StepOk(LateFlagStates(s, t, u), LateFlagSteps(t, u), i) {
      assert i == 0 || i == 1 || i == 2 || i == 3 || i == 4 || i == 5 || i == 6;
    }
  }

  /**
   Being in time is needed: from any healthy state in which VNC is down, a start that stores its flag
   after the supervisor's last check leaves the tick with VNC running, nothing tracked for it, and the
   port as it was. Nobody but these two moves, nothing dies, no stop comes up, and at no state on the
   way is VNC in time.
   */
  lemma {:induction false} LateFlagBreaks(s: State, t: Tid, u: Tid)
    requires AllHealthy(s) && s.lock.None? && t in s.pcs && s.pcs[t] == SupTick(true)
    requires u != t && u in s.pcs && s.pcs[u] == StartFlag(Vnc) && Vnc !in s.running && Vnc !in s.tracked
    ensures var states, steps := LateFlagStates(s, t, u), LateFlagSteps(t, u);
            && IsRun(states, steps) && states[0] == s && steps[0] == Run(t, true, 0)
            && (forall i :: 0 <= i < 8 ==> !InTime(states[i], t, Vnc) && !InTimeForPort(states[i], t))
            && (!SomePending(s, Vnc) ==> Undisturbed(states, Vnc, 0, 7))
    ensures var s' := LateFlagStates(s, t, u)[7];
            && t in s'.pcs && s'.pcs[t] == SupTick(true) && s'.lock.None?
            && Vnc in s'.running && !Live(s', Vnc) && s'.port == s.port
  {
    LateFlagRuns(s, t, u);
    if !SomePending(s, Vnc) { LateFlagUndisturbed(s, t, u); }
  }

  lemma {:induction false} LateFlagUndisturbed(s: State, t: Tid, u: Tid)
    requires t in s.pcs && u in s.pcs && !SomePending(s, Vnc)
    ensures Undisturbed(LateFlagStates(s, t, u), Vnc, 0, 7)
  {
    var states := LateFlagStates(s, t, u);
    forall i | 0 <= i < |states| ensures !SomePending(states[i], Vnc) {
      forall v | v in states[i].pcs ensures !StopPending(states[i].pcs[v], Vnc) {
        if v != t && v != u { assert v in s.pcs && states[i].pcs[v] == s.pcs[v]; }
      }
    }
  }

  // ---- a port that is stored after the clear ----

  /** An attach of VNC holds the mutex past its load of the running flag, and its bind has not failed. */
  predicate Resurfacing(s: State) {
    Holder(s).Attach? && Holder(s).svc == Vnc && PastCheck(Holder(s).phase) && !Holder(s).phase.BindFailed?
  }

  predicate PortDown(s: State) {
    s.port == 0 && Vnc !in s.running && !Resurfacing(s)
  }

  lemma {:induction false} PortDownPhase(s: State, t: Tid, svc: Svc, phase: Phase, sup: bool, ok: bool, id: nat)
    requires s.port == 0 && Vnc !in s.running && PhaseOk(s, svc, phase)
    requires !(svc == Vnc && PastCheck(phase) && !phase.BindFailed?)
    ensures var s1, next := PhaseEffect(s, t, svc, phase, ok, id), NextPhase(s, svc, phase, ok, id);
            s1.port == 0 && Vnc !in s1.running && !(svc == Vnc && PastCheck(next) && !next.BindFailed?)
  {
  }

  lemma {:induction false} PortDownOther(s: State, t: Tid, pc: Pc, ok: bool, id: nat)
    requires s.port == 0 && Vnc !in s.running && !pc.Attach? && pc != StartFlag(Vnc)
    ensures var s1 := Effect(s, t, pc, ok, id); s1.port == 0 && Vnc !in s1.running
  {
  }

  lemma {:induction false} PortDownRun(s: State, t: Tid, ok: bool, id: nat)
    requires Inv(s) && Enabled(s, Run(t, ok, id)) && PortDown(s) && s.pcs[t] != StartFlag(Vnc)
    ensures PortDown(Do(s, Run(t, ok, id)))
  {
    var s', pc := Do(s, Run(t, ok, id)), s.pcs[t];
    HolderChange(s, s', t, ok, id);
    if !pc.Attach? {
      PortDownOther(s, t, pc, ok, id);
    } else if pc.phase.Lock? {
      PhaseFrame(s, t, pc.svc, pc.phase, ok, id);
    } else {
      PortDownPhase(s, t, pc.svc, pc.phase, pc.sup, ok, id);
    }
  }

  lemma {:induction false} PortDownStep(s: State, st: Step)
    requires Inv(s) && Enabled(s, st) && PortDown(s) && !Restarts(s, st, Vnc)
    ensures PortDown(Do(s, st))
  {
    match st
    case Run(t, ok, id) => PortDownRun(s, t, ok, id);
    case Spawn(t, pc) => assert Holder(Do(s, st)) == Holder(s);
    case _ =>
  }

  lemma {:induction false} PortStaysDown(states: seq<State>, steps: seq<Step>, i: nat)
    requires IsRun(states, steps) && Inv(states[0]) && PortDown(states[0]) && i < |states|
    requires forall k :: 0 <= k < |steps| ==> !Restarts(states[k], steps[k], Vnc)
    ensures PortDown(states[i])
  {
    if i > 0 {
      PortStaysDown(states, steps, i - 1);
      RunInv(states, steps, i - 1);
      assert StepOk(states, steps, i - 1);
      PortDownStep(states[i - 1], steps[i - 1]);
    }
  }

  /** A bound on the listeners ever bound, so that there is a next one. */
  lemma {:induction false} Above(keys: set<nat>) returns (n: nat)
    ensures forall k :: k in keys ==> k < n
    decreases keys
  {
    if keys == {} { return 0; }
    var x :| x in keys;
    n := Above(keys - {x});
    if n <= x { n := x + 1; }
    forall k | k in keys ensures k < n {
      if k != x { assert k in keys - {x}; }
    }
  }

  /** How many steps at most the attach is from storing the port. */
  function Distance(phase: Phase): nat {
    match phase
    case Health(_) => 9
    case ClearPort(_) => 8
    case Connected(_) => 7
    case CloseOld(_) => 6
    case RemoveOld(_) => 5
    case Untrack(_) => 4
    case Bind(_, _) => 3
    case Add(_, _) => 2
    case Track(_) => 1
    case _ => 0
  }

  lemma {:induction false} NearerPort(s: State, phase: Phase, id: nat)
    requires PastCheck(phase) && !phase.BindFailed? && !phase.SetPort?
    ensures var next := NextPhase(s, Vnc, phase, true, id);
            PastCheck(next) && !next.BindFailed? && Distance(next) < Distance(phase)
  {
  }

  /** Left alone, with the network up, such an attach stores the port. */
  lemma {:induction false} Resurface(s: State, t: Tid, phase: Phase, sup: bool) returns (states: seq<State>,
                                     steps: seq<Step>)
    requires t in s.pcs && s.pcs[t] == Attach(Vnc, phase, sup) && PastCheck(phase) && !phase.BindFailed?
    ensures IsRun(states, steps) && states[0] == s && states[|steps|].port == VNC_PORT
    ensures forall k :: 0 <= k < |steps| ==> !Restarts(states[k], steps[k], Vnc)
    decreases Distance(phase)
  {
    var id := Above(s.bound.Keys);
    var st := Run(t, true, id);
    var s1 := Do(s, st);
    var rest, more := [s1], [];
    if !phase.SetPort? {
      NearerPort(s, phase, id);
      rest, more := Resurface(s1, t, NextPhase(s, Vnc, phase, true, id), sup);
    }
    states, steps := [s] + rest, [st] + more;
    forall k | 0 <= k < |steps| ensures StepOk(states, steps, k) && !Restarts(states[k], steps[k], Vnc) {
      if k > 0 { assert StepOk(rest, more, k - 1) && !Restarts(rest[k - 1], more[k - 1], Vnc); }
    }
  }

  /**
   A cleared VNC port with the server down: it can be advertised again before the next start, stop
   returned or not, if and only if an attach stands past its load of the running flag.
   */
  lemma {:induction false} PortResurfacesIff(s: State)
    requires Inv(s) && s.port == 0 && Vnc !in s.running
    ensures (exists states: seq<State>, steps: seq<Step> ::
               && IsRun(states, steps) && states[0] == s && states[|steps|].port != 0
               && forall k :: 0 <= k < |steps| ==> !Restarts(states[k], steps[k], Vnc))
            <==> Resurfacing(s)
  {
    if Resurfacing(s) {
      var t, h := s.lock.value, Holder(s);
      var states, steps := Resurface(s, t, h.phase, h.sup);
      assert states[|steps|].port != 0;
    } else {
      forall states: seq<State>, steps: seq<Step> |
        IsRun(states, steps) && states[0] == s && (forall k :: 0 <= k < |steps| ==> !Restarts(states[k], steps[k], Vnc))
        ensures states[|steps|].port == 0
      {
        PortStaysDown(states, steps, |steps|);
      }
    }
  }
}
