/** Safety of the VPN listeners over every run, and the self-heal guarantee of one supervisor tick. */
module VpnTheorems {
  import opened Prelude
  import opened VpnListeners
  import opened VpnInvariant

  ghost predicate RunFromInit(states: seq<State>, steps: seq<Step>) {
    IsRun(states, steps) && Init(states[0])
  }

  lemma {:induction false} ReachedInv(states: seq<State>, steps: seq<Step>, i: nat)
    requires RunFromInit(states, steps) && i < |states|
    ensures Inv(states[i])
  {
    RunInv(states, steps, i);
  }

  /**
   Between critical sections every VPN listener ever bound is closed or is the single one tracked
   for its service; a server's own list never holds two open ones; running implies published.
   */
  lemma {:induction false} NoListenerLost(states: seq<State>, steps: seq<Step>, i: nat)
    requires RunFromInit(states, steps) && i < |states|
    ensures var s := states[i];
            && (s.lock.None? ==> forall l :: l in s.bound && l !in s.closed ==>
                 s.bound[l] in s.tracked && s.tracked[s.bound[l]] == l)
            && (forall srv, l, m :: srv in s.extras && {l, m} <= s.extras[srv] - s.closed ==> l == m)
            && s.running <= s.server.Keys
  {
    var s := states[i];
    ReachedInv(states, steps, i);
    forall srv, l, m | srv in s.extras && {l, m} <= s.extras[srv] - s.closed ensures l == m {
      assert l in {l, m} && m in {l, m};
      assert Accounted(s, Holder(s), l) && Accounted(s, Holder(s), m);
    }
    if s.lock.None? { assert forall l :: l in s.bound ==> Accounted(s, Holder(s), l); }
  }

  /** Whoever is about to bind has nothing open for its service, and the replaced listener is closed and removed. */
  lemma {:induction false} ReplacedBeforeBind(states: seq<State>, steps: seq<Step>, i: nat, t: Tid)
    requires RunFromInit(states, steps) && i < |states|
    requires t in states[i].pcs && states[i].pcs[t].Attach? && states[i].pcs[t].phase.Bind?
    ensures var s := states[i];
            var Attach(svc, Bind(srv, replaced), _) := s.pcs[t];
            && svc !in s.tracked
            && (forall l :: l in s.bound && s.bound[l] == svc ==> l in s.closed)
            && (replaced.Some? ==> Gone(s, srv, replaced.value))
  {
    var s := states[i];
    ReachedInv(states, steps, i);
    assert Holder(s) == s.pcs[t];
    assert forall l :: l in s.bound ==> Accounted(s, Holder(s), l);
  }

  /** Not running, not tracked, and no attach holding the lock believes otherwise. */
  predicate Quiesced(s: State, svc: Svc) {
    svc !in s.running && svc !in s.tracked &&
    !(Holder(s).Attach? && Holder(s).svc == svc && PastCheck(Holder(s).phase))
  }

  predicate Restarts(s: State, st: Step, svc: Svc) {
    st.Run? && st.t in s.pcs && s.pcs[st.t] == StartFlag(svc)
  }

  lemma {:induction false} QuiescedRun(s: State, t: Tid, ok: bool, id: nat, svc: Svc)
    requires Inv(s) && Enabled(s, Run(t, ok, id)) && Quiesced(s, svc) && s.pcs[t] != StartFlag(svc)
    ensures Quiesced(Do(s, Run(t, ok, id)), svc)
  {
    var pc, s' := s.pcs[t], Do(s, Run(t, ok, id));
    HolderChange(s, s', t, ok, id);
    if pc.Attach? {
      PhaseFrame(s, t, pc.svc, pc.phase, ok, id);
      OriginPhase(s, t, pc.svc, pc.phase, ok, id, svc);
    } else {
      OriginOther(s, t, pc, ok, id);
      StopMoves(s, t, pc, ok, id, svc);
    }
  }

  lemma {:induction false} QuiescedStep(s: State, st: Step, svc: Svc)
    requires Inv(s) && Enabled(s, st) && Quiesced(s, svc) && !Restarts(s, st, svc)
    ensures Quiesced(Do(s, st), svc)
  {
    match st
    case Run(t, ok, id) => QuiescedRun(s, t, ok, id, svc);
    case Spawn(t, pc) => assert Holder(Do(s, st)) == Holder(s);
    case _ =>
  }

  lemma {:induction false} ResetQuiesces(s: State, t: Tid, ok: bool, id: nat, svc: Svc)
    requires Inv(s) && Enabled(s, Run(t, ok, id)) && s.pcs[t] == StopReset(svc) && svc !in s.running
    ensures Quiesced(Do(s, Run(t, ok, id)), svc)
  {
    OriginOther(s, t, s.pcs[t], ok, id);
    HolderMoves(s, Do(s, Run(t, ok, id)), t, ok, id);
  }

  /** Step `i` of the run is a stop's reset, with the running flag still clear. */
  ghost predicate ResetsAt(states: seq<State>, steps: seq<Step>, i: nat, svc: Svc)
    requires IsRun(states, steps)
  {
    && i < |steps| && steps[i].Run? && steps[i].t in states[i].pcs && states[i].pcs[steps[i].t] == StopReset(svc)
    && svc !in states[i].running
  }

  /**
   Once a stop has reset its service, nothing is tracked for it, and nothing will be until a start
   sets the running flag again, whatever attaches, ticks and tear-downs run in between. Step `i` is
   the reset; a start that slipped in between the flag clear and the reset shows as a set flag.
   */
  lemma {:induction false} StopIsFinal(states: seq<State>, steps: seq<Step>, i: nat, j: nat, svc: Svc)
    requires RunFromInit(states, steps) && ResetsAt(states, steps, i, svc) && i < j < |states|
    requires forall k :: i < k < j ==> !Restarts(states[k], steps[k], svc)
    ensures svc !in states[j].tracked && svc !in states[j].running
    ensures Quiesced(states[j], svc)
    decreases j
  {
    ReachedInv(states, steps, j - 1);
    assert StepOk(states, steps, j - 1);
    if j == i + 1 {
      ResetQuiesces(states[i], steps[i].t, steps[i].ok, steps[i].id, svc);
    } else {
      StopIsFinal(states, steps, i, j - 1, svc);
      QuiescedStep(states[j - 1], steps[j - 1], svc);
    }
  }

  /** Seen from one state: a service that is neither running nor being stopped tracks nothing. */
  lemma {:induction false} StoppedTracksNothing(states: seq<State>, steps: seq<Step>, i: nat, svc: Svc)
    requires RunFromInit(states, steps) && i < |states|
    requires svc !in states[i].running && !SomePending(states[i], svc)
    ensures svc !in states[i].tracked
  {
    ReachedInv(states, steps, i);
  }

  // ---- dead and closed ----

  /** A listener is recorded dead only if tsnet tore it down: closing it ourselves never suffices. */
  lemma {:induction false} DeadWasTorn(states: seq<State>, steps: seq<Step>, i: nat, l: Lid)
    requires RunFromInit(states, steps) && i < |states| && l in states[i].dead
    ensures l in states[i].torn
  {
    ReachedInv(states, steps, i);
  }

  /** Closed by us, not dead, and no accept loop is past its check of the closed flag. */
  predicate SettledClosed(s: State, l: Lid) {
    l in s.closed && l !in s.dead && l !in s.marking
  }

  lemma {:induction false} SettledStep(s: State, st: Step, l: Lid)
    requires Enabled(s, st) && SettledClosed(s, l)
    ensures SettledClosed(Do(s, st), l)
  {
    if st.Run? { FlagsOnlyGrow(s, st.t, s.pcs[st.t], st.ok, st.id); }
  }

  lemma {:induction false} FlagsOnlyGrow(s: State, t: Tid, pc: Pc, ok: bool, id: nat)
    ensures var s1 := Effect(s, t, pc, ok, id); s.closed <= s1.closed && s1.dead == s.dead && s1.marking == s.marking
  {
    if pc.Attach? { FlagFrame(s, t, pc.svc, pc.phase, ok, id); }
  }

  lemma {:induction false} FlagFrame(s: State, t: Tid, svc: Svc, phase: Phase, ok: bool, id: nat)
    ensures var s1 := PhaseEffect(s, t, svc, phase, ok, id);
            s.closed <= s1.closed && s1.dead == s.dead && s1.marking == s.marking
  {
  }

  lemma {:induction false} SettledRun(states: seq<State>, steps: seq<Step>, i: nat, j: nat, l: Lid)
    requires IsRun(states, steps) && i <= j < |states| && SettledClosed(states[i], l)
    ensures SettledClosed(states[j], l)
    decreases j
  {
    if i < j {
      SettledRun(states, steps, i, j - 1, l);
      assert StepOk(states, steps, j - 1);
      SettledStep(states[j - 1], steps[j - 1], l);
    }
  }

  /**
   When a deliberately closed listener can still be recorded dead: exactly when its accept loop had
   loaded the closed flag as unset before the Close and has not stored `dead` yet.
   */
  lemma {:induction false} ClosedBecomesDead(s: State, l: Lid)
    requires l in s.closed && l !in s.dead
    ensures (exists states: seq<State>, steps: seq<Step> ::
               IsRun(states, steps) && states[0] == s && l in states[|steps|].dead)
            <==> l in s.marking
  {
    if l in s.marking {
      var steps := [AcceptMark(l)];
      var states := [s, Do(s, AcceptMark(l))];
      assert IsRun(states, steps) && states[0] == s && l in states[|steps|].dead;
    } else {
      forall states: seq<State>, steps: seq<Step> | IsRun(states, steps) && states[0] == s
        ensures l !in states[|steps|].dead {
        SettledRun(states, steps, 0, |steps|, l);
      }
    }
  }

  // ---- one supervisor tick ----

  predicate Before(a: Svc, b: Svc) {
    (a.Terminal? && !b.Terminal?) || (a.Vnc? && b.H264?)
  }

  /** The supervisor has dealt with `svc` in this tick. */
  predicate Beyond(pc: Pc, svc: Svc) {
    match pc
    case SupHealth(v) => Before(svc, v)
    case SupUnlock(healthy) => healthy
    case SupTick(_) => true
    case SupCheck(v) => Before(svc, v)
    case Attach(v, phase, sup) => Before(svc, v) || (v == svc && (phase.SetPort? || phase.Unlock?))
    case _ => false
  }

  /** The step records the tracked listener of `svc` dead. */
  predicate Marks(s: State, st: Step, svc: Svc) {
    st.AcceptMark? && svc in s.tracked && s.tracked[svc] == st.l
  }

  /**
   The step records the listener of `svc` dead too late for the tick of supervisor `t`: it has dealt with
   the service already, or is just putting that listener in place.
   */
  predicate TooLate(s: State, st: Step, t: Tid, svc: Svc) {
    st.AcceptMark? && t in s.pcs &&
    ((Beyond(s.pcs[t], svc) && Marks(s, st, svc)) ||
     (s.pcs[t].Attach? && s.pcs[t].svc == svc && HoldsNew(s.pcs[t], st.l)))
  }

  /** An attach of `svc` finds the network up and its bind succeeds. */
  predicate NetworkOk(s: State, st: Step, svc: Svc) {
    st.Run? && st.t in s.pcs && AsksNetwork(s.pcs[st.t], svc) ==> st.ok
  }

  predicate AsksNetwork(pc: Pc, svc: Svc) {
    pc.Attach? && pc.svc == svc && (pc.phase.Connected? || pc.phase.Bind?)
  }

  lemma {:induction false} LiveStable(s: State, st: Step, svc: Svc)
    requires Inv(s) && Enabled(s, st) && Live(s, svc) && !Marks(s, st, svc)
    requires st.Run? ==> s.pcs[st.t] != StopReset(svc)
    ensures Live(Do(s, st), svc)
  {
    if st.Run? {
      var pc := s.pcs[st.t];
      HolderChange(s, Do(s, st), st.t, st.ok, st.id);
      if pc.Attach? {
        LivePhase(s, st.t, pc.svc, pc.phase, st.ok, st.id, svc);
      } else {
        OriginOther(s, st.t, pc, st.ok, st.id);
        LiveOther(s, st.t, pc, st.ok, st.id, svc);
      }
    }
  }

  lemma {:induction false} LivePhase(s: State, t: Tid, svc: Svc, phase: Phase, ok: bool, id: nat, v: Svc)
    requires Live(s, v) && (phase.Lock? || PhaseOk(s, svc, phase))
    ensures Live(PhaseEffect(s, t, svc, phase, ok, id), v)
  {
  }

  lemma {:induction false} LiveOther(s: State, t: Tid, pc: Pc, ok: bool, id: nat, v: Svc)
    requires Live(s, v) && !pc.Attach? && pc != StopReset(v)
    ensures Live(Effect(s, t, pc, ok, id), v)
  {
  }

  predicate Supervising(pc: Pc) {
    pc.SupTick? || pc.SupLock? || pc.SupHealth? || pc.SupUnlock? || pc.SupCheck? || (pc.Attach? && pc.sup)
  }

  /** What the supervisor's own position says about `svc` while it is healing. */
  predicate HealingPc(s: State, pc: Pc, svc: Svc) {
    && Supervising(pc)
    && (Beyond(pc, svc) ==> Live(s, svc))
    && (pc.Attach? && pc.svc == svc ==>
          && (pc.phase.LoadRunning? ==> pc.phase.server.Some?)
          && !pc.phase.BindFailed?
          && (pc.phase.Add? || pc.phase.Track? ==> pc.phase.l !in s.dead))
  }

  predicate Healing(s: State, t: Tid, svc: Svc) {
    svc in s.running && t in s.pcs && HealingPc(s, s.pcs[t], svc)
  }

  lemma {:induction false} HealPhase(s: State, t: Tid, svc: Svc, phase: Phase, ok: bool, id: nat)
    requires HealingPc(s, Attach(svc, phase, true), svc) && svc in s.running && svc in s.server
    requires s.dead <= s.bound.Keys
    requires phase.Connected? || phase.Bind? ==> ok
    requires phase.Bind? ==> id !in s.bound
    ensures HealingPc(PhaseEffect(s, t, svc, phase, ok, id), Next(s, Attach(svc, phase, true), ok, id), svc)
  {
  }

  lemma {:induction false} HealElsewhere(s: State, s1: State, pc: Pc, ok: bool, id: nat, svc: Svc)
    requires HealingPc(s, pc, svc) && svc in s.running && !(pc.Attach? && pc.svc == svc)
    requires Live(s, svc) ==> Live(s1, svc)
    ensures HealingPc(s1, Next(s, pc, ok, id), svc)
  {
  }

  lemma {:induction false} HealOwnStep(s: State, t: Tid, svc: Svc, ok: bool, id: nat)
    requires Inv(s) && Enabled(s, Run(t, ok, id)) && Healing(s, t, svc) && NetworkOk(s, Run(t, ok, id), svc)
    ensures Healing(Do(s, Run(t, ok, id)), t, svc)
  {
    var pc, s' := s.pcs[t], Do(s, Run(t, ok, id));
    if pc.Attach? { PhaseFrame(s, t, pc.svc, pc.phase, ok, id); }
    if pc.Attach? && pc.svc == svc {
      HealPhase(s, t, svc, pc.phase, ok, id);
    } else {
      if Live(s, svc) { LiveStable(s, Run(t, ok, id), svc); }
      HealElsewhere(s, s', pc, ok, id, svc);
    }
  }

  lemma {:induction false} HealOtherStep(s: State, st: Step, t: Tid, svc: Svc)
    requires Inv(s) && Enabled(s, st) && Healing(s, t, svc) && !SomePending(s, svc)
    requires !SomePending(Do(s, st), svc)
    requires !TooLate(s, st, t, svc) && (st.Run? ==> st.t != t)
    ensures Healing(Do(s, st), t, svc)
  {
    var pc, s' := s.pcs[t], Do(s, st);
    assert s'.pcs[t] == pc;
    assert st.Run? ==> !StopPending(s.pcs[st.t], svc);
    if Beyond(pc, svc) { LiveStable(s, st, svc); }
    assert pc.Attach? && !pc.phase.Lock? ==> Holder(s) == pc;
    if st.Run? {
      NoStopFlag(s, st.t, st.ok, st.id, svc);
      OthersFrame(s, st.t, s.pcs[st.t], st.ok, st.id, svc);
    }
  }

  /** With no stop of `svc` pending before or after it, a step is not the flag clear of `svc`. */
  lemma {:induction false} NoStopFlag(s: State, t: Tid, ok: bool, id: nat, svc: Svc)
    requires Enabled(s, Run(t, ok, id)) && !SomePending(s, svc) && !SomePending(Do(s, Run(t, ok, id)), svc)
    ensures !StopPending(s.pcs[t], svc) && s.pcs[t] != StopFlag(svc)
  {
    var s' := Do(s, Run(t, ok, id));
    assert t in s'.pcs && !StopPending(s'.pcs[t], svc);
  }

  lemma {:induction false} OthersFrame(s: State, t: Tid, pc: Pc, ok: bool, id: nat, svc: Svc)
    requires pc != StopFlag(svc)
    ensures var s1 := Effect(s, t, pc, ok, id); s1.dead == s.dead && (svc in s.running ==> svc in s1.running)
  {
    if pc.Attach? { PhaseFrame(s, t, pc.svc, pc.phase, ok, id); FlagFrame(s, t, pc.svc, pc.phase, ok, id); }
  }

  /**
   From state `m` to state `j` no stop of `svc` stands between its flag clear and its reset. For a
   running service such a stop means that a start overtook it.
   */
  ghost predicate Undisturbed(states: seq<State>, svc: Svc, m: nat, j: nat)
    requires j < |states|
  {
    forall i :: m <= i <= j ==> !SomePending(states[i], svc)
  }

  /**
   The service runs, and the supervisor, past its poll, can still take care of it in this tick: it has
   not dealt with the service yet, and if it is attaching it, it has neither loaded a missing server nor
   failed to bind nor bound a listener that has died.
   */
  predicate InTime(s: State, t: Tid, svc: Svc) {
    Healing(s, t, svc) && !Beyond(s.pcs[t], svc)
  }

  lemma {:induction false} HealStep(s: State, st: Step, t: Tid, svc: Svc)
    requires Inv(s) && Enabled(s, st) && Healing(s, t, svc) && !TooLate(s, st, t, svc) && NetworkOk(s, st, svc)
    requires !SomePending(s, svc) && !SomePending(Do(s, st), svc)
    ensures Healing(Do(s, st), t, svc)
  {
    if st.Run? && st.t == t { HealOwnStep(s, t, svc, st.ok, st.id); } else { HealOtherStep(s, st, t, svc); }
  }

  /** Nothing in this step keeps supervisor `t` from healing `svc`. */
  predicate Favourable(s: State, st: Step, t: Tid, svc: Svc) {
    NetworkOk(s, st, svc) && !TooLate(s, st, t, svc)
  }

  /** A service that runs at a connected poll is in time. */
  lemma {:induction false} PollIsInTime(s: State, t: Tid, id: nat, svc: Svc)
    requires Enabled(s, Run(t, true, id)) && s.pcs[t].SupTick? && svc in s.running
    ensures InTime(Do(s, Run(t, true, id)), t, svc)
  {
  }

  /** So is one whose start stores the flag while the supervisor has not come to it and is not attaching it. */
  lemma {:induction false} FlagIsInTime(s: State, t: Tid, u: Tid, svc: Svc)
    requires u != t && Enabled(s, Run(u, true, 0)) && s.pcs[u] == StartFlag(svc)
    requires t in s.pcs && Supervising(s.pcs[t]) && !Beyond(s.pcs[t], svc) && !(s.pcs[t].Attach? && s.pcs[t].svc == svc)
    ensures InTime(Do(s, Run(u, true, 0)), t, svc)
  {
  }

  lemma {:induction false} HealingRun(states: seq<State>, steps: seq<Step>, t: Tid, svc: Svc, m: nat, j: nat)
    requires IsRun(states, steps) && Inv(states[0]) && m <= j < |states|
    requires InTime(states[m], t, svc) && Undisturbed(states, svc, m, j)
    requires forall i :: m <= i < j ==> Favourable(states[i], steps[i], t, svc)
    ensures Healing(states[j], t, svc)
    decreases j
  {
    if m < j {
      HealingRun(states, steps, t, svc, m, j - 1);
      RunInv(states, steps, j - 1);
      assert StepOk(states, steps, j - 1);
      assert !SomePending(states[j - 1], svc) && !SomePending(states[j], svc);
      assert Favourable(states[j - 1], steps[j - 1], t, svc);
      HealStep(states[j - 1], steps[j - 1], t, svc);
    }
  }

  /**
   Self-heal. A service runs in time for the tick of supervisor `t` at state `m`, and the supervisor is
   back at its ticker at state `j`, with any other threads interleaved. If the network stayed up and the
   binds succeeded in between, the service has a live tracked listener, whatever its accept loops
   recorded up to the supervisor's check of it; it is open unless a stop is closing it, and its binding
   is intact if the accept loops had noticed every earlier tear-down and no new one came.
   */
  lemma {:induction false} TickHeals(states: seq<State>, steps: seq<Step>, t: Tid, svc: Svc, m: nat, j: nat)
    requires IsRun(states, steps) && Inv(states[0]) && m <= j < |states|
    requires InTime(states[m], t, svc) && Undisturbed(states, svc, m, j)
    requires forall i :: m <= i < j ==> Favourable(states[i], steps[i], t, svc)
    requires t in states[j].pcs && states[j].pcs[t].SupTick?
    ensures svc in states[j].running && Live(states[j], svc)
    ensures !SomeInFlight(states[j], svc) ==> states[j].tracked[svc] !in states[j].closed
    ensures states[m].torn <= states[m].dead && (forall i :: m <= i < j ==> !steps[i].TearDown?) ==>
              states[j].tracked[svc] !in states[j].torn
  {
    HealingRun(states, steps, t, svc, m, j);
    RunInv(states, steps, j);
    assert Live(states[j], svc);
    if forall i :: m <= i < j ==> !steps[i].TearDown? { NoTearDown(states, steps, m, j); }
  }

  lemma {:induction false} NoTearDown(states: seq<State>, steps: seq<Step>, m: nat, j: nat)
    requires IsRun(states, steps) && m <= j < |states|
    requires forall i :: m <= i < j ==> !steps[i].TearDown?
    ensures states[j].torn == states[m].torn && states[m].dead <= states[j].dead
    decreases j
  {
    if m < j {
      NoTearDown(states, steps, m, j - 1);
      var s, st := states[j - 1], steps[j - 1];
      assert StepOk(states, steps, j - 1);
      if st.Run? { TornFrame(s, st.t, s.pcs[st.t], st.ok, st.id); }
    }
  }

  lemma {:induction false} TornFrame(s: State, t: Tid, pc: Pc, ok: bool, id: nat)
    ensures var s1 := Effect(s, t, pc, ok, id); s1.torn == s.torn && s1.dead == s.dead
  {
    if pc.Attach? { TornPhase(s, t, pc.svc, pc.phase, ok, id); }
  }

  lemma {:induction false} TornPhase(s: State, t: Tid, svc: Svc, phase: Phase, ok: bool, id: nat)
    ensures var s1 := PhaseEffect(s, t, svc, phase, ok, id); s1.torn == s.torn && s1.dead == s.dead
  {
  }

  // ---- the advertised VNC port ----

  /** The port agrees with reachability, or the lock holder stands where it is about to make it so. */
  predicate PortSettled(s: State, h: Pc) {
    if h.Attach? && h.svc == Vnc && h.phase.SetPort? then Live(s, Vnc)
    else if h.Attach? && h.svc == Vnc && h.phase.ClearPort? then !Live(s, Vnc)
    else if h.Attach? && h.svc == Vnc && Rebinding(h.phase) then
      s.port == 0 && !Live(s, Vnc) && (h.phase.Add? || h.phase.Track? ==> h.phase.l !in s.dead)
    else s.port != 0 <==> Live(s, Vnc)
  }

  predicate Rebinding(phase: Phase) {
    phase.Connected? || phase.CloseOld? || phase.RemoveOld? || phase.Untrack? ||
    phase.Bind? || phase.BindFailed? || phase.Add? || phase.Track?
  }

  /** The supervisor has checked or re-attached VNC in this tick. */
  predicate BeyondVnc(pc: Pc) {
    match pc
    case SupHealth(v) => v.H264?
    case SupUnlock(healthy) => healthy
    case SupTick(_) => true
    case SupCheck(v) => v.H264?
    case Attach(v, phase, _) =>
      v.H264? || (v.Vnc? && (phase.SetPort? || phase.ClearPort? || Rebinding(phase) || phase.Unlock?))
    case _ => false
  }

  /**
   The step records a VNC listener dead after the supervisor's check of VNC: the tracked one, or one
   being put in place.
   */
  predicate TooLateForPort(s: State, st: Step, t: Tid) {
    st.AcceptMark? && t in s.pcs && BeyondVnc(s.pcs[t]) && MarksVnc(s, st)
  }

  predicate MarksVnc(s: State, st: Step) {
    Marks(s, st, Vnc) || (st.AcceptMark? && Holder(s).Attach? && Holder(s).svc == Vnc && HoldsNew(Holder(s), st.l))
  }

  predicate PortWatch(s: State, t: Tid) {
    && Vnc in s.running && t in s.pcs && Supervising(s.pcs[t])
    && (s.pcs[t].Attach? && s.pcs[t].svc == Vnc && s.pcs[t].phase.LoadRunning? ==> s.pcs[t].phase.server.Some?)
    && (BeyondVnc(s.pcs[t]) ==> PortSettled(s, Holder(s)))
  }

  lemma {:induction false} PortSettledPhase(s: State, t: Tid, svc: Svc, phase: Phase, sup: bool, ok: bool, id: nat)
    requires PortSettled(s, Attach(svc, phase, sup)) && PhaseOk(s, svc, phase) && !phase.Lock?
    requires s.dead <= s.bound.Keys && (phase.Bind? && ok ==> id !in s.bound)
    ensures var s1 := PhaseEffect(s, t, svc, phase, ok, id);
            && PortSettled(s1, Attach(svc, NextPhase(s, svc, phase, ok, id), sup))
            && (phase.Unlock? ==> PortSettled(s1, Done))
  {
  }

  lemma {:induction false} PortSettledOther(s: State, t: Tid, pc: Pc, h: Pc, ok: bool, id: nat)
    requires PortSettled(s, h) && !pc.Attach? && !StopPending(pc, Vnc)
    ensures PortSettled(Effect(s, t, pc, ok, id), h)
  {
  }

  lemma {:induction false} PortSettledRun(s: State, t: Tid, h: Pc, h': Pc, ok: bool, id: nat)
    requires Enabled(s, Run(t, ok, id)) && PortSettled(s, h) && !StopPending(s.pcs[t], Vnc)
    requires s.dead <= s.bound.Keys && (h.Attach? ==> PhaseOk(s, h.svc, h.phase))
    requires var pc, pc' := s.pcs[t], Do(s, Run(t, ok, id)).pcs[t];
            if pc.Attach? && pc.phase.Lock? then h == Done && h' == pc'
            else if pc.Attach? then h == pc && (h' == pc' || (!pc'.Attach? && !h'.Attach?))
            else h == h' || (!h.Attach? && !h'.Attach?)
    ensures PortSettled(Do(s, Run(t, ok, id)), h')
  {
    var pc := s.pcs[t];
    if pc.Attach? && !pc.phase.Lock? {
      PortSettledPhase(s, t, pc.svc, pc.phase, pc.sup, ok, id);
    } else if !pc.Attach? {
      PortSettledOther(s, t, pc, h, ok, id);
    }
  }

  /** Any step that leaves VNC's listeners and stops alone keeps a settled port settled. */
  lemma {:induction false} PortSettledStep(s: State, st: Step)
    requires Inv(s) && Enabled(s, st) && PortSettled(s, Holder(s)) && !SomePending(s, Vnc) && !MarksVnc(s, st)
    ensures PortSettled(Do(s, st), Holder(Do(s, st)))
  {
    match st
    case Run(t, ok, id) =>
      HolderChange(s, Do(s, st), t, ok, id);
      assert !StopPending(s.pcs[t], Vnc);
      PortSettledRun(s, t, Holder(s), Holder(Do(s, st)), ok, id);
    case Spawn(t, pc) => assert Holder(Do(s, st)) == Holder(s);
    case AcceptMark(l) => PortSettledMark(s, l, Holder(s));
    case _ =>
  }

  lemma {:induction false} PortSettledMark(s: State, l: Lid, h: Pc)
    requires PortSettled(s, h) && !(Vnc in s.tracked && s.tracked[Vnc] == l)
    requires !(h.Attach? && h.svc == Vnc && HoldsNew(h, l))
    ensures PortSettled(s.(dead := s.dead + {l}, marking := s.marking - {l}), h)
  {
  }

  /** The supervisor's own step into the region beyond VNC settles the port. */
  lemma {:induction false} PortSettlesPhase(s: State, t: Tid, phase: Phase, ok: bool, id: nat)
    requires Vnc in s.running && (phase.LoadRunning? ==> phase.server.Some?)
    requires !BeyondVnc(Attach(Vnc, phase, true)) && !phase.Lock?
    ensures var s1, next := PhaseEffect(s, t, Vnc, phase, ok, id), NextPhase(s, Vnc, phase, ok, id);
            BeyondVnc(Attach(Vnc, next, true)) ==> PortSettled(s1, Attach(Vnc, next, true))
  {
  }

  /** Outside its VNC attach, the supervisor only gets beyond VNC through the health check. */
  lemma {:induction false} BeyondVncOnlyBy(s: State, pc: Pc, ok: bool, id: nat)
    requires Supervising(pc) && !BeyondVnc(pc) && Vnc in s.running && !(pc.Attach? && pc.svc == Vnc)
    ensures Supervising(Next(s, pc, ok, id))
    ensures (BeyondVnc(Next(s, pc, ok, id)) ==> pc == SupHealth(Vnc) && Live(s, Vnc))
  {
  }

  lemma {:induction false} SupervisingOn(s: State, pc: Pc, ok: bool, id: nat)
    requires Supervising(pc) && Vnc in s.server
    ensures var pc' := Next(s, pc, ok, id);
            Supervising(pc') && (pc'.Attach? && pc'.svc == Vnc && pc'.phase.LoadRunning? ==> pc'.phase.server.Some?)
  {
  }

  lemma {:induction false} NoPortCleared(s: State)
    requires !SomePending(s, Vnc)
    ensures !SomePortCleared(s)
  {
    if u :| u in s.pcs && PortCleared(s.pcs[u]) { assert StopPending(s.pcs[u], Vnc); }
  }

  lemma {:induction false} PortOwnSettles(s: State, t: Tid, ok: bool, id: nat)
    requires Inv(s) && Enabled(s, Run(t, ok, id)) && PortWatch(s, t) && !SomePending(s, Vnc)
    requires !BeyondVnc(s.pcs[t]) && BeyondVnc(Next(s, s.pcs[t], ok, id))
    ensures var s' := Do(s, Run(t, ok, id)); PortSettled(s', Holder(s'))
  {
    var pc, s' := s.pcs[t], Do(s, Run(t, ok, id));
    HolderMoves(s, s', t, ok, id);
    if pc.Attach? && pc.svc == Vnc {
      PortSettlesPhase(s, t, pc.phase, ok, id);
    } else {
      BeyondVncOnlyBy(s, pc, ok, id);
      NoPortCleared(s);
      assert s'.port == VNC_PORT && Live(s', Vnc);
    }
  }

  lemma {:induction false} PortOwnStep(s: State, t: Tid, ok: bool, id: nat)
    requires Inv(s) && Enabled(s, Run(t, ok, id)) && PortWatch(s, t) && !SomePending(s, Vnc)
    ensures PortWatch(Do(s, Run(t, ok, id)), t)
  {
    OthersFrame(s, t, s.pcs[t], ok, id, Vnc);
    SupervisingOn(s, s.pcs[t], ok, id);
    if BeyondVnc(s.pcs[t]) {
      PortSettledStep(s, Run(t, ok, id));
    } else if BeyondVnc(Next(s, s.pcs[t], ok, id)) {
      PortOwnSettles(s, t, ok, id);
    }
  }

  lemma {:induction false} PortOtherStep(s: State, st: Step, t: Tid)
    requires Inv(s) && Enabled(s, st) && PortWatch(s, t) && !SomePending(s, Vnc)
    requires !TooLateForPort(s, st, t) && (st.Run? ==> st.t != t) && !SomePending(Do(s, st), Vnc)
    ensures PortWatch(Do(s, st), t)
  {
    assert Do(s, st).pcs[t] == s.pcs[t];
    if BeyondVnc(s.pcs[t]) { PortSettledStep(s, st); }
    if st.Run? {
      NoStopFlag(s, st.t, st.ok, st.id, Vnc);
      OthersFrame(s, st.t, s.pcs[st.t], st.ok, st.id, Vnc);
    }
  }

  lemma {:induction false} PortStep(s: State, st: Step, t: Tid)
    requires Inv(s) && Enabled(s, st) && PortWatch(s, t) && !TooLateForPort(s, st, t)
    requires !SomePending(s, Vnc) && !SomePending(Do(s, st), Vnc)
    ensures PortWatch(Do(s, st), t)
  {
    if st.Run? && st.t == t { PortOwnStep(s, t, st.ok, st.id); } else { PortOtherStep(s, st, t); }
  }

  /** VNC runs, and the supervisor, past its poll, has not come to the check of it that will settle the port. */
  predicate InTimeForPort(s: State, t: Tid) {
    PortWatch(s, t) && !BeyondVnc(s.pcs[t])
  }

  lemma {:induction false} PollIsInTimeForPort(s: State, t: Tid, id: nat)
    requires Enabled(s, Run(t, true, id)) && s.pcs[t].SupTick? && Vnc in s.running
    ensures InTimeForPort(Do(s, Run(t, true, id)), t)
  {
  }

  lemma {:induction false} PortWatchRun(states: seq<State>, steps: seq<Step>, t: Tid, m: nat, j: nat)
    requires IsRun(states, steps) && Inv(states[0]) && m <= j < |states|
    requires InTimeForPort(states[m], t) && Undisturbed(states, Vnc, m, j)
    requires forall i :: m <= i < j ==> !TooLateForPort(states[i], steps[i], t)
    ensures PortWatch(states[j], t)
    decreases j
  {
    if m < j {
      PortWatchRun(states, steps, t, m, j - 1);
      RunInv(states, steps, j - 1);
      assert StepOk(states, steps, j - 1);
      assert !SomePending(states[j - 1], Vnc) && !SomePending(states[j], Vnc);
      PortStep(states[j - 1], steps[j - 1], t);
    }
  }

  /**
   After a connected tick the heartbeat tells the truth even when binds fail or the network drops
   again under an attach: outside the mutex, the advertised port of a VNC server that ran in time for
   the tick is nonzero exactly when its tracked listener is live, unless that listener was recorded
   dead after the check.
   */
  lemma {:induction false} TickSettlesPort(states: seq<State>, steps: seq<Step>, t: Tid, m: nat, j: nat)
    requires IsRun(states, steps) && Inv(states[0]) && m <= j < |states|
    requires InTimeForPort(states[m], t) && Undisturbed(states, Vnc, m, j)
    requires forall i :: m <= i < j ==> !TooLateForPort(states[i], steps[i], t)
    requires t in states[j].pcs && states[j].pcs[t].SupTick? && states[j].lock.None?
    ensures Vnc in states[j].running
    ensures states[j].port != 0 <==> Live(states[j], Vnc)
  {
    PortWatchRun(states, steps, t, m, j);
  }

  predicate AllHealthy(s: State) {
    forall v :: v in s.running ==> Live(s, v)
  }

  function SupAt(s: State, t: Tid, lock: Option<Tid>, pc: Pc): State {
    s.(lock := lock, pcs := s.pcs[t := pc])
  }

  lemma {:induction false} SupStep(s: State, t: Tid, lock: Option<Tid>, pc: Pc, lock': Option<Tid>, pc': Pc)
    requires WantsLock(pc) ==> lock.None?
    requires pc.SupHealth? && pc.svc in s.running ==> Live(s, pc.svc)
    requires || (pc == SupTick(true) && pc' == SupLock && lock' == lock)
             || (pc == SupLock && pc' == SupHealth(Terminal) && lock' == Some(t))
             || (pc.SupHealth? && pc' == AfterHealthy(pc.svc) && lock' == lock)
             || (pc == SupUnlock(true) && pc' == SupTick(true) && lock' == None)
    ensures var a := SupAt(s, t, lock, pc);
            Enabled(a, Run(t, true, 0)) && Do(a, Run(t, true, 0)) == SupAt(s, t, lock', pc')
  {
    var a := SupAt(s, t, lock, pc);
    assert forall v :: Live(a, v) <==> Live(s, v);
    assert a.pcs[t := pc'] == s.pcs[t := pc'];
  }

  /** A connected tick over healthy listeners changes nothing at all. */
  lemma {:induction false} HealthyTick(s: State, t: Tid) returns (states: seq<State>, steps: seq<Step>)
    requires AllHealthy(s) && s.lock.None? && t in s.pcs && s.pcs[t] == SupTick(true)
    ensures IsRun(states, steps) && |steps| == 6 && states[0] == s && states[6] == s
    ensures forall i :: 0 <= i < 6 ==> steps[i] == Run(t, true, 0)
  {
    var pcs := [SupTick(true), SupLock, SupHealth(Terminal), SupHealth(Vnc),
                SupHealth(H264), SupUnlock(true), SupTick(true)];
    var locks := [None, None, Some(t), Some(t), Some(t), Some(t), None];
    states := seq(7, i requires 0 <= i < 7 => SupAt(s, t, locks[i], pcs[i]));
    steps := seq(6, _ => Run(t, true, 0));
    forall i | 0 <= i < 6 ensures StepOk(states, steps, i) {
      SupStep(s, t, locks[i], pcs[i], locks[i + 1], pcs[i + 1]);
    }
    assert s.pcs[t := SupTick(true)] == s.pcs;
  }

  /** What an accept loop makes of a listener whose binding is torn down. */
  function Died(s: State, l: Lid): State {
    s.(torn := s.torn + {l}, marking := s.marking + {l} - {l}, dead := s.dead + {l})
  }

  /** A tick over healthy listeners during which the VNC listener dies right after its check. */
  function LateStates(s: State, t: Tid, l: Lid): seq<State>
    requires l in s.bound && l !in s.closed
  {
    var a, d := SupAt(s, t, Some(t), SupHealth(H264)), Died(s, l);
    [s, SupAt(s, t, None, SupLock), SupAt(s, t, Some(t), SupHealth(Terminal)), SupAt(s, t, Some(t), SupHealth(Vnc)), a,
     a.(torn := s.torn + {l}), a.(torn := s.torn + {l}, marking := s.marking + {l}),
     SupAt(d, t, Some(t), SupHealth(H264)),
     SupAt(d, t, Some(t), SupUnlock(true)), SupAt(d, t, None, SupTick(true))]
  }

  function LateSteps(t: Tid, l: Lid): seq<Step> {
    var run := Run(t, true, 0);
    [run, run, run, run, TearDown(l), AcceptObserve(l), AcceptMark(l), run, run]
  }

  lemma {:induction false} SupStepAt(states: seq<State>, steps: seq<Step>, i: nat, s: State, t: Tid,
                                     lock: Option<Tid>, pc: Pc, lock': Option<Tid>, pc': Pc)
    requires i < |steps| && |states| == |steps| + 1 && steps[i] == Run(t, true, 0)
    requires states[i] == SupAt(s, t, lock, pc) && states[i + 1] == SupAt(s, t, lock', pc')
    requires WantsLock(pc) ==> lock.None?
    requires pc.SupHealth? && pc.svc in s.running ==> Live(s, pc.svc)
    requires || (pc == SupTick(true) && pc' == SupLock && lock' == lock)
             || (pc == SupLock && pc' == SupHealth(Terminal) && lock' == Some(t))
             || (pc.SupHealth? && pc' == AfterHealthy(pc.svc) && lock' == lock)
             || (pc == SupUnlock(true) && pc' == SupTick(true) && lock' == None)
    ensures StepOk(states, steps, i)
  {
    SupStep(s, t, lock, pc, lock', pc');
  }

  lemma {:induction false} LateTickPolls(s: State, t: Tid, l: Lid)
    requires s.lock.None? && t in s.pcs && s.pcs[t] == SupTick(true) && l in s.bound && l !in s.closed
    ensures var states, steps := LateStates(s, t, l), LateSteps(t, l);
            StepOk(states, steps, 0) && StepOk(states, steps, 1)
  {
    var states, steps := LateStates(s, t, l), LateSteps(t, l);
    assert s.pcs[t := SupTick(true)] == s.pcs;
    SupStepAt(states, steps, 0, s, t, None, SupTick(true), None, SupLock);
    SupStepAt(states, steps, 1, s, t, None, SupLock, Some(t), SupHealth(Terminal));
  }

  lemma {:induction false} LateTickChecks(s: State, t: Tid, l: Lid)
    requires AllHealthy(s) && l in s.bound && l !in s.closed
    ensures var states, steps := LateStates(s, t, l), LateSteps(t, l);
            StepOk(states, steps, 2) && StepOk(states, steps, 3)
  {
    var states, steps := LateStates(s, t, l), LateSteps(t, l);
    SupStepAt(states, steps, 2, s, t, Some(t), SupHealth(Terminal), Some(t), SupHealth(Vnc));
    SupStepAt(states, steps, 3, s, t, Some(t), SupHealth(Vnc), Some(t), SupHealth(H264));
  }

  lemma {:induction false} LateTickDies(s: State, t: Tid, l: Lid)
    requires l in s.bound && l !in s.closed
    ensures var states, steps := LateStates(s, t, l), LateSteps(t, l);
            StepOk(states, steps, 4) && StepOk(states, steps, 5) && StepOk(states, steps, 6)
  {
  }

  lemma {:induction false} LateTickEnds(s: State, t: Tid, l: Lid)
    requires l in s.bound && l !in s.closed && (H264 in s.running ==> Live(s, H264) && s.tracked[H264] != l)
    ensures var states, steps := LateStates(s, t, l), LateSteps(t, l);
            StepOk(states, steps, 7) && StepOk(states, steps, 8)
  {
    var states, steps, d := LateStates(s, t, l), LateSteps(t, l), Died(s, l);
    assert H264 in d.running ==> Live(d, H264);
    SupStepAt(states, steps, 7, d, t, Some(t), SupHealth(H264), Some(t), SupUnlock(true));
    SupStepAt(states, steps, 8, d, t, Some(t), SupUnlock(true), None, SupTick(true));
  }

  lemma {:induction false} LateTickRuns(s: State, t: Tid, l: Lid)
    requires AllHealthy(s) && s.lock.None? && t in s.pcs && s.pcs[t] == SupTick(true) && l in s.bound && l !in s.closed
    requires H264 in s.running ==> s.tracked[H264] != l
    ensures IsRun(LateStates(s, t, l), LateSteps(t, l))
  {
    LateTickPolls(s, t, l);
    LateTickChecks(s, t, l);
    LateTickDies(s, t, l);
    LateTickEnds(s, t, l);
    forall i | 0 <= i < 9 ensures StepOk(LateStates(s, t, l), LateSteps(t, l), i) {
      assert i == 0 || i == 1 || i == 2 || i == 3 || i == 4 || i == 5 || i == 6 || i == 7 || i == 8;
    }
  }

  lemma {:induction false} LateTickLate(s: State, t: Tid, l: Lid)
    requires l in s.bound && l !in s.closed && Vnc in s.tracked && s.tracked[Vnc] == l
    ensures var states, steps := LateStates(s, t, l), LateSteps(t, l);
            && TooLate(states[6], steps[6], t, Vnc) && TooLateForPort(states[6], steps[6], t)
            && (forall i :: 0 <= i < 9 && i != 6 ==> Favourable(states[i], steps[i], t, Vnc))
  {
    var states, steps := LateStates(s, t, l), LateSteps(t, l);
    forall i | 0 <= i < 9 && i != 6 ensures Favourable(states[i], steps[i], t, Vnc) {
      assert steps[i] in [Run(t, true, 0), TearDown(l), AcceptObserve(l)];
    }
  }

  /**
   The exclusion of late marks is needed: from any healthy state, a tick during which the VNC listener
   dies right after its check returns with a running VNC server, no live listener, and the port still
   advertised. Step 6 is the only late one, nobody but the supervisor moves, and no stop comes up.
   */
  lemma {:induction false} LateMarkBreaks(s: State, t: Tid, l: Lid)
    requires Inv(s) && AllHealthy(s) && s.lock.None? && t in s.pcs && s.pcs[t] == SupTick(true)
    requires Vnc in s.running && Vnc in s.tracked && s.tracked[Vnc] == l && l !in s.closed
    ensures var states, steps := LateStates(s, t, l), LateSteps(t, l);
            && IsRun(states, steps) && states[0] == s && steps[0] == Run(t, true, 0)
            && TooLate(states[6], steps[6], t, Vnc) && TooLateForPort(states[6], steps[6], t)
            && (forall i :: 0 <= i < 9 && i != 6 ==> Favourable(states[i], steps[i], t, Vnc))
            && (!SomePending(s, Vnc) ==> Undisturbed(states, Vnc, 0, 9))
    ensures var s' := LateStates(s, t, l)[9];
            && t in s'.pcs && s'.pcs[t] == SupTick(true) && s'.lock.None?
            && Vnc in s'.running && !Live(s', Vnc) && s'.port == s.port
  {
    LateTickRuns(s, t, l);
    LateTickLate(s, t, l);
    if !SomePending(s, Vnc) { LateUndisturbed(s, t, l); }
  }

  lemma {:induction false} LateUndisturbed(s: State, t: Tid, l: Lid)
    requires l in s.bound && l !in s.closed && t in s.pcs && !SomePending(s, Vnc)
    ensures Undisturbed(LateStates(s, t, l), Vnc, 0, 9)
  {
    var states := LateStates(s, t, l);
    forall i | 0 <= i < |states| ensures !SomePending(states[i], Vnc) {
      assert states[i].pcs == s.pcs || states[i].pcs == s.pcs[t := states[i].pcs[t]];
      assert !StopPending(states[i].pcs[t], Vnc);
      forall u | u in states[i].pcs ensures !StopPending(states[i].pcs[u], Vnc) {
        if u != t { assert u in s.pcs && states[i].pcs[u] == s.pcs[u]; }
      }
    }
  }

  /**
   At every reachable state outside the mutex a live VNC listener is advertised, unless a stop has just
   cleared the port.
   */
  lemma {:induction false} LiveIsAdvertised(states: seq<State>, steps: seq<Step>, i: nat)
    requires RunFromInit(states, steps) && i < |states| && states[i].lock.None? && Live(states[i], Vnc)
    ensures states[i].port == VNC_PORT || SomePortCleared(states[i])
  {
    ReachedInv(states, steps, i);
  }

  /**
   The exclusion of a pending stop is needed: whenever a start overtook a VNC stop before its port
   clear and everything is healthy, the port clear followed by a full connected tick leaves a
   running VNC server with a live listener and no advertised port.
   */
  lemma {:induction false} OvertakenStopHidesPort(s: State, u: Tid, t: Tid) returns (states: seq<State>,
                                                  steps: seq<Step>)
    requires Vnc in s.running && AllHealthy(s) && s.lock.None? && u != t
    requires u in s.pcs && s.pcs[u] == StopPort && t in s.pcs && s.pcs[t] == SupTick(true)
    ensures IsRun(states, steps) && |steps| == 7 && states[0] == s
    ensures forall i :: 1 <= i < 7 ==> steps[i] == Run(t, true, 0)
    ensures t in states[1].pcs && states[1].pcs[t] == SupTick(true)
    ensures var s' := states[7];
            && t in s'.pcs && s'.pcs[t] == SupTick(true) && s'.lock.None?
            && Vnc in s'.running && Live(s', Vnc) && s'.port == 0
            && s'.tracked == s.tracked && s'.closed == s.closed && s'.torn == s.torn && s'.dead == s.dead
  {
    var s1 := Do(s, Run(u, true, 0));
    assert forall v :: Live(s1, v) <==> Live(s, v);
    var tick, ticks := HealthyTick(s1, t);
    states, steps := [s] + tick, [Run(u, true, 0)] + ticks;
    forall i | 0 <= i < 7 ensures StepOk(states, steps, i) {
      if i > 0 { assert StepOk(tick, ticks, i - 1); }
    }
  }
}
