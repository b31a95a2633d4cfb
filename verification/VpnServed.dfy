/** Whether the tracked listener belongs to the server that is published, and what can come between the two. */
module VpnServed {
  import opened Prelude
  import opened VpnListeners
  import opened VpnInvariant
  import opened VpnTheorems

  /** The published server of `svc` serves `l`. */
  predicate Serves(s: State, svc: Svc, l: Lid) {
    svc in s.server && s.server[svc] in s.extras && l in s.extras[s.server[svc]]
  }

  predicate Attaching(h: Pc, svc: Svc) {
    h.Attach? && h.svc == svc
  }

  /** What an attach has loaded as the server is still what is published. */
  predicate Loaded(s: State, svc: Svc, h: Pc) {
    Attaching(h, svc) && h.phase.LoadRunning? && h.phase.server.Some? ==>
      svc in s.server && s.server[svc] == h.phase.server.value
  }

  predicate ServedNow(s: State, svc: Svc, h: Pc) {
    && (svc in s.tracked && !(Attaching(h, svc) && h.phase.Untrack?) ==> Serves(s, svc, s.tracked[svc]))
    && (Attaching(h, svc) && PhaseServer(h.phase).Some? ==>
          svc in s.server && s.server[svc] == PhaseServer(h.phase).value)
    && (Attaching(h, svc) && h.phase.Track? ==> Serves(s, svc, h.phase.l))
  }

  /** Unless a stop stands between its flag clear and its reset, the published server serves the tracked listener. */
  ghost predicate Served(s: State, svc: Svc, h: Pc) {
    Loaded(s, svc, h) && (!SomePending(s, svc) ==> ServedNow(s, svc, h))
  }

  /**
   A start publishes its server under another one: the service is flagged as running already, so two
   starts overlap, or an attach has loaded the old pointer and not yet the running flag.
   */
  predicate PublishesOver(s: State, st: Step, svc: Svc) {
    st.Run? && st.t in s.pcs && s.pcs[st.t].StartPublish? && s.pcs[st.t].svc == svc &&
    (svc in s.running || (Attaching(Holder(s), svc) && Holder(s).phase.LoadRunning? && Holder(s).phase.server.Some?))
  }

  lemma {:induction false} PendingStable(s: State, t: Tid, ok: bool, id: nat, svc: Svc)
    requires Enabled(s, Run(t, ok, id)) && s.pcs[t] != StopReset(svc) && SomePending(s, svc)
    ensures SomePending(Do(s, Run(t, ok, id)), svc)
  {
    var s', pc := Do(s, Run(t, ok, id)), s.pcs[t];
    StopMoves(s, t, pc, ok, id, svc);
    LockMoves(s, t, pc, ok, id);
    var u :| u in s.pcs && StopPending(s.pcs[u], svc);
    assert u in s'.pcs && StopPending(s'.pcs[u], svc);
  }

  /** An attach of the service itself. */
  lemma {:induction false} ServedPhase(s: State, t: Tid, svc: Svc, phase: Phase, sup: bool, ok: bool, id: nat)
    requires var h := Attach(svc, phase, sup); Loaded(s, svc, h) && ServedNow(s, svc, h) && PhaseOk(s, svc, phase)
    requires !phase.Lock? && (PhaseServer(phase).Some? ==> ServerOf(s, PhaseServer(phase).value, svc))
    ensures var s1, h' := PhaseEffect(s, t, svc, phase, ok, id), Attach(svc, NextPhase(s, svc, phase, ok, id), sup);
            ServedNow(s1, svc, h')
  {
  }

  lemma {:induction false} LoadedPhase(s: State, t: Tid, svc: Svc, phase: Phase, sup: bool, ok: bool, id: nat)
    ensures Loaded(PhaseEffect(s, t, svc, phase, ok, id), svc, Attach(svc, NextPhase(s, svc, phase, ok, id), sup))
  {
  }

  /** An attach of another service touches that service's server only. */
  lemma {:induction false} ServedElsewhere(s: State, t: Tid, svc: Svc, v: Svc, phase: Phase, ok: bool, id: nat)
    requires v != svc && PublishInv(s) && (svc in s.tracked ==> Serves(s, svc, s.tracked[svc]))
    requires PhaseServer(phase).Some? ==> ServerOf(s, PhaseServer(phase).value, v)
    ensures var s1 := PhaseEffect(s, t, v, phase, ok, id); svc in s1.tracked ==> Serves(s1, svc, s1.tracked[svc])
  {
    if svc in s.server { assert ServerOf(s, s.server[svc], svc); }
  }

  /** Steps outside any attach, the bad publishes and the stop's own apart. */
  lemma {:induction false} ServedOther(s: State, t: Tid, pc: Pc, h: Pc, svc: Svc, ok: bool, id: nat)
    requires PublishInv(s) && !pc.Attach? && ServedNow(s, svc, h) && !(pc.StartPublish? && pc.svc == svc)
    requires (pc.StartBuild? && ok ==> id !in s.owner) && (pc.StopReset? ==> !h.Attach?)
    ensures ServedNow(Effect(s, t, pc, ok, id), svc, h)
  {
    if svc in s.server { assert ServerOf(s, s.server[svc], svc); }
  }

  lemma {:induction false} LoadedOther(s: State, t: Tid, pc: Pc, h: Pc, svc: Svc, ok: bool, id: nat)
    requires !pc.Attach? && Loaded(s, svc, h)
    requires pc.StartPublish? && pc.svc == svc ==> !(Attaching(h, svc) && h.phase.LoadRunning? && h.phase.server.Some?)
    ensures Loaded(Effect(s, t, pc, ok, id), svc, h)
  {
  }

  lemma {:induction false} ServedSame(s1: State, s': State, svc: Svc, h: Pc)
    requires s' == s1.(pcs := s'.pcs)
    ensures (ServedNow(s1, svc, h) <==> ServedNow(s', svc, h)) && (Loaded(s1, svc, h) <==> Loaded(s', svc, h))
  {
  }

  /** Taking the mutex loads nothing yet. */
  lemma {:induction false} ServedLock(s: State, t: Tid, svc: Svc, ok: bool, id: nat)
    requires Inv(s) && Enabled(s, Run(t, ok, id)) && Attaching(s.pcs[t], svc) && s.pcs[t].phase.Lock?
    requires Served(s, svc, Holder(s))
    ensures var s' := Do(s, Run(t, ok, id)); Served(s', svc, Holder(s'))
  {
    var s' := Do(s, Run(t, ok, id));
    HolderChange(s, s', t, ok, id);
    if SomePending(s, svc) { PendingStable(s, t, ok, id, svc); }
  }

  /** The step of an attach past its lock, seen from its own service. */
  lemma {:induction false} ServedOwn(s: State, t: Tid, svc: Svc, ok: bool, id: nat)
    requires Inv(s) && Enabled(s, Run(t, ok, id)) && Attaching(s.pcs[t], svc) && !s.pcs[t].phase.Lock?
    requires Served(s, svc, Holder(s))
    ensures var s' := Do(s, Run(t, ok, id)); Served(s', svc, Holder(s'))
  {
    var s', pc := Do(s, Run(t, ok, id)), s.pcs[t];
    var s1, h' := PhaseEffect(s, t, svc, pc.phase, ok, id), Attach(svc, NextPhase(s, svc, pc.phase, ok, id), pc.sup);
    HolderChange(s, s', t, ok, id);
    LoadedPhase(s, t, svc, pc.phase, pc.sup, ok, id);
    ServedSame(s1, s', svc, h');
    if SomePending(s, svc) {
      PendingStable(s, t, ok, id, svc);
    } else {
      ServedPhase(s, t, svc, pc.phase, pc.sup, ok, id);
    }
  }

  /** The step of an attach, seen from another service. */
  lemma {:induction false} ServedAway(s: State, t: Tid, svc: Svc, ok: bool, id: nat)
    requires Inv(s) && Enabled(s, Run(t, ok, id)) && s.pcs[t].Attach? && s.pcs[t].svc != svc
    requires Served(s, svc, Holder(s))
    ensures var s' := Do(s, Run(t, ok, id)); Served(s', svc, Holder(s'))
  {
    var s', pc := Do(s, Run(t, ok, id)), s.pcs[t];
    HolderChange(s, s', t, ok, id);
    if SomePending(s, svc) {
      PendingStable(s, t, ok, id, svc);
    } else {
      ServedElsewhere(s, t, svc, pc.svc, pc.phase, ok, id);
      ServedSame(PhaseEffect(s, t, pc.svc, pc.phase, ok, id), s', svc, Done);
      assert !Attaching(Holder(s'), svc);
    }
  }

  /**
   A publish that meets neither a running service nor a loaded pointer finds nothing tracked that no
   stop vouches for.
   */
  lemma {:induction false} ServedPublish(s: State, t: Tid, svc: Svc, ok: bool, id: nat)
    requires Inv(s) && Enabled(s, Run(t, ok, id)) && s.pcs[t].StartPublish? && s.pcs[t].svc == svc
    requires !PublishesOver(s, Run(t, ok, id), svc)
    ensures var s' := Do(s, Run(t, ok, id)); !SomePending(s', svc) ==> ServedNow(s', svc, Holder(s'))
  {
    var s' := Do(s, Run(t, ok, id));
    HolderMoves(s, s', t, ok, id);
    if SomePending(s, svc) { PendingStable(s, t, ok, id, svc); }
  }

  lemma {:induction false} ServedElse(s: State, t: Tid, svc: Svc, ok: bool, id: nat)
    requires Inv(s) && Enabled(s, Run(t, ok, id)) && !s.pcs[t].Attach? && Served(s, svc, Holder(s))
    requires !PublishesOver(s, Run(t, ok, id), svc)
    ensures var s' := Do(s, Run(t, ok, id)); Served(s', svc, Holder(s'))
  {
    var s', pc, h := Do(s, Run(t, ok, id)), s.pcs[t], Holder(s);
    var s1 := Effect(s, t, pc, ok, id);
    HolderChange(s, s', t, ok, id);
    LoadedOther(s, t, pc, h, svc, ok, id);
    ServedSame(s1, s', svc, h);
    ServedSame(s1, s', svc, Done);
    if pc.StartPublish? && pc.svc == svc {
      ServedPublish(s, t, svc, ok, id);
    } else if SomePending(s, svc) && pc != StopReset(svc) {
      PendingStable(s, t, ok, id, svc);
    } else if SomePending(s, svc) {
      OriginOther(s, t, pc, ok, id);
    } else {
      ServedOther(s, t, pc, h, svc, ok, id);
    }
  }

  lemma {:induction false} ServedStep(s: State, st: Step, svc: Svc)
    requires Inv(s) && Enabled(s, st) && Served(s, svc, Holder(s)) && !PublishesOver(s, st, svc)
    ensures Served(Do(s, st), svc, Holder(Do(s, st)))
  {
    match st
    case Run(t, ok, id) =>
      if !s.pcs[t].Attach? { ServedElse(s, t, svc, ok, id); }
      else if s.pcs[t].svc == svc && s.pcs[t].phase.Lock? { ServedLock(s, t, svc, ok, id); }
      else if s.pcs[t].svc == svc { ServedOwn(s, t, svc, ok, id); }
      else { ServedAway(s, t, svc, ok, id); }
    case Spawn(t, pc) =>
      assert Holder(Do(s, st)) == Holder(s);
      if u :| u in s.pcs && StopPending(s.pcs[u], svc) {
        assert u in Do(s, st).pcs && StopPending(Do(s, st).pcs[u], svc);
      }
    case _ => assert SomePending(Do(s, st), svc) <==> SomePending(s, svc);
  }

  lemma {:induction false} ServedRun(states: seq<State>, steps: seq<Step>, svc: Svc, i: nat)
    requires RunFromInit(states, steps) && i < |states|
    requires forall k :: 0 <= k < |steps| ==> !PublishesOver(states[k], steps[k], svc)
    ensures Served(states[i], svc, Holder(states[i]))
  {
    if i > 0 {
      ServedRun(states, steps, svc, i - 1);
      ReachedInv(states, steps, i - 1);
      assert StepOk(states, steps, i - 1);
      ServedStep(states[i - 1], steps[i - 1], svc);
    }
  }

  /**
   Over every run in which no start publishes over another server, the tracked listener of a service is
   served by the server that is published, whenever the mutex is free and no stop is about to reset it.
   */
  lemma {:induction false} TrackedIsServed(states: seq<State>, steps: seq<Step>, svc: Svc, i: nat)
    requires RunFromInit(states, steps) && i < |states|
    requires forall k :: 0 <= k < |steps| ==> !PublishesOver(states[k], steps[k], svc)
    requires states[i].lock.None? && !SomePending(states[i], svc) && svc in states[i].tracked
    ensures Serves(states[i], svc, states[i].tracked[svc])
  {
    ServedRun(states, steps, svc, i);
  }
}
