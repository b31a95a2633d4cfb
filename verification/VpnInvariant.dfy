/** What every step of every thread keeps. */
module VpnInvariant {
  import opened Prelude
  import opened VpnListeners

  /** The thread is between Lock and Unlock of the mutex. */
  predicate InCritical(pc: Pc) {
    || (pc.Attach? && !pc.phase.Lock?)
    || pc.StopReset? || pc.StopUnlock?
    || pc.SupHealth? || pc.SupUnlock?
  }

  /** The thread that owns the mutex; `Done` when it is free. */
  function Holder(s: State): Pc {
    if s.lock.Some? && s.lock.value in s.pcs then s.pcs[s.lock.value] else Done
  }

  /** A stop that has cleared the running flag and not yet reset the tracking. */
  predicate StopPending(pc: Pc, svc: Svc) {
    (pc.StopPort? && svc == Vnc) || ((pc.StopLock? || pc.StopReset?) && pc.svc == svc)
  }

  /** A stop past its running check and not yet done with the reset. */
  predicate StopInFlight(pc: Pc, svc: Svc) {
    StopPending(pc, svc) || ((pc.StopServer? || pc.StopClosing? || pc.StopFlag?) && pc.svc == svc)
  }

  /** A VNC stop between its port clear and its reset. */
  predicate PortCleared(pc: Pc) {
    (pc.StopLock? || pc.StopReset?) && pc.svc == Vnc
  }

  ghost predicate SomePending(s: State, svc: Svc) {
    exists t :: t in s.pcs && StopPending(s.pcs[t], svc)
  }

  ghost predicate SomeInFlight(s: State, svc: Svc) {
    exists t :: t in s.pcs && StopInFlight(s.pcs[t], svc)
  }

  ghost predicate SomePortCleared(s: State) {
    exists t :: t in s.pcs && PortCleared(s.pcs[t])
  }

  ghost predicate MutexInv(s: State) {
    && (forall t :: t in s.pcs && InCritical(s.pcs[t]) ==> s.lock == Some(t))
    && (s.lock.Some? ==> s.lock.value in s.pcs && InCritical(s.pcs[s.lock.value]))
  }

  predicate ServerOf(s: State, srv: Srv, svc: Svc) {
    srv in s.owner && s.owner[srv] == svc && srv in s.extras
  }

  /** Server pointers named by a program counter belong to its service. */
  predicate PcServerOk(s: State, pc: Pc) {
    match pc
    case StartPublish(svc, srv) => ServerOf(s, srv, svc)
    case StartFlag(svc) => svc in s.server
    case StopClosing(svc, srv) => ServerOf(s, srv, svc)
    case Attach(svc, phase, sup) =>
      (phase.LoadRunning? && phase.server.Some? ==> ServerOf(s, phase.server.value, svc)) &&
      (PhaseServer(phase).Some? ==> ServerOf(s, PhaseServer(phase).value, svc))
    case _ => true
  }

  function PhaseServer(phase: Phase): Option<Srv> {
    if phase.Health? || phase.ClearPort? || phase.Connected? || phase.CloseOld? || phase.RemoveOld? ||
       phase.Untrack? || phase.Bind? || phase.Add?
    then Some(phase.srv) else None
  }

  /** Published servers exist for every running service. */
  ghost predicate PublishInv(s: State) {
    && s.owner.Keys == s.extras.Keys
    && (forall svc :: svc in s.server ==> ServerOf(s, s.server[svc], svc))
    && (forall svc :: svc in s.running ==> svc in s.server)
  }

  ghost predicate ServerInv(s: State) {
    PublishInv(s) && forall t :: t in s.pcs ==> PcServerOk(s, s.pcs[t])
  }

  /** A server only holds its own service's listeners. */
  ghost predicate ExtrasInv(s: State) {
    forall srv, l :: srv in s.extras && l in s.extras[srv] ==>
      l in s.bound && srv in s.owner && s.bound[l] == s.owner[srv]
  }

  /** Flags speak of bound listeners, and only a torn listener is ever recorded dead. */
  predicate FlagInv(s: State) {
    && s.closed <= s.bound.Keys
    && s.torn <= s.bound.Keys
    && s.marking <= s.torn
    && s.dead <= s.torn
  }

  /** Closed by us and dropped from the server's own list. */
  predicate Gone(s: State, srv: Srv, l: Lid) {
    l in s.closed && (srv in s.extras ==> l !in s.extras[srv])
  }

  /** What the lock holder knows while it stands in a phase of the attach. */
  predicate PhaseOk(s: State, svc: Svc, phase: Phase) {
    && (phase.Add? || phase.Track? ==> phase.l in s.bound && s.bound[phase.l] == svc)
    && (phase.Bind? || phase.BindFailed? || phase.Add? || phase.Track? ==> svc !in s.tracked)
    && (Replacing(phase) ==> !Live(s, svc))
    && (phase.ClearPort? || phase.BindFailed? || phase.SetPort? ==> svc == Vnc)
    && (phase.RemoveOld? || phase.Untrack? ==> svc in s.tracked ==> s.tracked[svc] in s.closed)
    && (phase.Untrack? ==> svc in s.tracked ==> Gone(s, phase.srv, s.tracked[svc]))
    && (phase.Bind? && phase.replaced.Some? ==> Gone(s, phase.srv, phase.replaced.value))
  }

  /** No live listener was found, and the old one is not untracked yet. */
  predicate Replacing(phase: Phase) {
    phase.ClearPort? || phase.Connected? || phase.CloseOld? || phase.RemoveOld? || phase.Untrack?
  }

  predicate TrackInv(s: State, h: Pc) {
    && (forall svc :: svc in s.tracked ==> s.tracked[svc] in s.bound && s.bound[s.tracked[svc]] == svc)
    && (h.Attach? ==> PhaseOk(s, h.svc, h.phase))
  }

  /** The attach has bound `l` and not yet tracked it. */
  predicate HoldsNew(h: Pc, l: Lid) {
    h.Attach? && (h.phase.Add? || h.phase.Track?) && h.phase.l == l
  }

  predicate Accounted(s: State, h: Pc, l: Lid) {
    l in s.bound && (l in s.closed || (s.bound[l] in s.tracked && s.tracked[s.bound[l]] == l) || HoldsNew(h, l))
  }

  /** No listener is ever lost: it is closed, tracked, or in the hands of the lock holder. */
  ghost predicate LeakInv(s: State, h: Pc) {
    forall l :: l in s.bound ==> Accounted(s, h, l)
  }

  /** The attach has seen the running flag set and has not released the lock since. */
  predicate PastCheck(phase: Phase) {
    !(phase.Lock? || phase.LoadServer? || phase.LoadRunning? || phase.Unlock?)
  }

  ghost predicate Guarded(s: State, svc: Svc) {
    svc in s.running || SomePending(s, svc)
  }

  /** A tracked listener belongs to a running service or to a stop that will still reset it. */
  ghost predicate StopInv(s: State, h: Pc) {
    && (forall svc :: svc in s.tracked ==> Guarded(s, svc))
    && (h.Attach? && PastCheck(h.phase) ==> Guarded(s, h.svc))
  }

  predicate ClosingOld(h: Pc, svc: Svc) {
    h.Attach? && h.svc == svc && (h.phase.RemoveOld? || h.phase.Untrack?)
  }

  /** Only a stop in flight, or the attach replacing it, leaves a tracked listener closed. */
  ghost predicate ClosedInv(s: State, h: Pc) {
    && (forall svc :: svc in s.tracked && s.tracked[svc] in s.closed ==> SomeInFlight(s, svc) || ClosingOld(h, svc))
    && (h.Attach? && (h.phase.Add? || h.phase.Track?) && h.phase.l in s.closed ==> SomeInFlight(s, h.svc))
  }

  predicate SettingPort(h: Pc) {
    h.Attach? && h.svc == Vnc && h.phase.SetPort?
  }

  /** A live VNC listener is advertised, unless its port is being set or a stop just cleared it. */
  ghost predicate PortInv(s: State, h: Pc) {
    Live(s, Vnc) ==> s.port == VNC_PORT || SettingPort(h) || SomePortCleared(s)
  }

  /** The claims that depend on the lock holder, together. */
  ghost predicate HolderInv(s: State, h: Pc) {
    TrackInv(s, h) && LeakInv(s, h) && StopInv(s, h) && ClosedInv(s, h) && PortInv(s, h)
  }

  ghost predicate Inv(s: State) {
    MutexInv(s) && ServerInv(s) && ExtrasInv(s) && FlagInv(s) && HolderInv(s, Holder(s))
  }

  // ---- one thread step: its effect `s1` before the program counter is written back ----

  predicate LockMove(s: State, s1: State, t: Tid, pc: Pc, pc': Pc) {
    || (s1.lock == s.lock && InCritical(pc) == InCritical(pc') && !WantsLock(pc))
    || (WantsLock(pc) && s1.lock == Some(t) && InCritical(pc'))
    || (InCritical(pc) && s1.lock.None? && !InCritical(pc') && !pc'.Attach?)
  }

  lemma {:induction false} LockMovePhase(s: State, t: Tid, svc: Svc, phase: Phase, sup: bool, ok: bool, id: nat)
    ensures var pc := Attach(svc, phase, sup);
            var s1 := Effect(s, t, pc, ok, id);
            s1.pcs == s.pcs && LockMove(s, s1, t, pc, Next(s, pc, ok, id))
  {
  }

  lemma {:induction false} LockMoves(s: State, t: Tid, pc: Pc, ok: bool, id: nat)
    ensures var s1 := Effect(s, t, pc, ok, id); s1.pcs == s.pcs && LockMove(s, s1, t, pc, Next(s, pc, ok, id))
  {
    if pc.Attach? { LockMovePhase(s, t, pc.svc, pc.phase, pc.sup, ok, id); }
  }

  lemma {:induction false} MutexKept(s: State, s1: State, t: Tid, pc': Pc)
    requires MutexInv(s) && t in s.pcs && s1.pcs == s.pcs && LockMove(s, s1, t, s.pcs[t], pc')
    requires WantsLock(s.pcs[t]) ==> s.lock.None?
    ensures MutexInv(s1.(pcs := s.pcs[t := pc']))
    ensures var h, h' := Holder(s), Holder(s1.(pcs := s.pcs[t := pc']));
            || (h == s.pcs[t] && InCritical(h) && (h' == pc' || (h' == Done && !pc'.Attach?)))
            || (h == Done && WantsLock(s.pcs[t]) && h' == pc')
            || (h == h' && !InCritical(s.pcs[t]) && !WantsLock(s.pcs[t]) && !InCritical(pc'))
  {
  }

  ghost predicate Grows(s: State, s1: State) {
    && (forall srv :: srv in s.owner ==> srv in s1.owner && s1.owner[srv] == s.owner[srv])
    && s.extras.Keys <= s1.extras.Keys
    && s.server.Keys <= s1.server.Keys
  }

  /** An attach never publishes, creates or drops a server, and never writes the running flag. */
  lemma {:induction false} PhaseFrame(s: State, t: Tid, svc: Svc, phase: Phase, ok: bool, id: nat)
    ensures var s1 := PhaseEffect(s, t, svc, phase, ok, id);
            && s1.owner == s.owner && s1.server == s.server && s1.running == s.running
            && s1.extras.Keys == s.extras.Keys
  {
  }

  lemma {:induction false} PhaseServerKept(s: State, svc: Svc, phase: Phase, ok: bool, id: nat)
    requires PublishInv(s)
    requires phase.LoadRunning? && phase.server.Some? ==> ServerOf(s, phase.server.value, svc)
    requires PhaseServer(phase).Some? ==> ServerOf(s, PhaseServer(phase).value, svc)
    ensures var next := NextPhase(s, svc, phase, ok, id);
            && (next.LoadRunning? && next.server.Some? ==> ServerOf(s, next.server.value, svc))
            && (PhaseServer(next).Some? ==> ServerOf(s, PhaseServer(next).value, svc))
  {
  }

  lemma {:induction false} PublishPhase(s: State, t: Tid, svc: Svc, phase: Phase, sup: bool, ok: bool, id: nat)
    requires var pc := Attach(svc, phase, sup); PublishInv(s) && PcServerOk(s, pc)
    ensures var pc := Attach(svc, phase, sup);
            var s1 := Effect(s, t, pc, ok, id);
            PublishInv(s1) && Grows(s, s1) && PcServerOk(s1, Next(s, pc, ok, id))
  {
    PhaseFrame(s, t, svc, phase, ok, id);
    PhaseServerKept(s, svc, phase, ok, id);
    var s1 := PhaseEffect(s, t, svc, phase, ok, id);
    assert forall srv, v :: ServerOf(s, srv, v) <==> ServerOf(s1, srv, v);
  }

  lemma {:induction false} PublishKept(s: State, t: Tid, pc: Pc, ok: bool, id: nat)
    requires PublishInv(s) && PcServerOk(s, pc)
    requires pc.StartBuild? && ok ==> id !in s.owner
    ensures var s1 := Effect(s, t, pc, ok, id);
            PublishInv(s1) && Grows(s, s1) && PcServerOk(s1, Next(s, pc, ok, id))
  {
    if pc.Attach? { PublishPhase(s, t, pc.svc, pc.phase, pc.sup, ok, id); }
  }

  lemma {:induction false} ServerKept(s: State, t: Tid, s1: State, pc': Pc)
    requires ServerInv(s) && PublishInv(s1) && Grows(s, s1) && PcServerOk(s1, pc')
    ensures ServerInv(s1.(pcs := s.pcs[t := pc']))
  {
    var s' := s1.(pcs := s.pcs[t := pc']);
    forall u | u in s'.pcs ensures PcServerOk(s', s'.pcs[u]) {
      if u != t { PcServerGrows(s, s1, s.pcs[u]); }
      PcServerSame(s1, s', s'.pcs[u]);
    }
  }

  lemma {:induction false} PcServerGrows(s: State, s1: State, pc: Pc)
    requires Grows(s, s1) && PcServerOk(s, pc)
    ensures PcServerOk(s1, pc)
  {
  }

  lemma {:induction false} PcServerSame(s1: State, s': State, pc: Pc)
    requires s' == s1.(pcs := s'.pcs)
    ensures PcServerOk(s1, pc) == PcServerOk(s', pc)
  {
  }

  lemma {:induction false} ExtrasPhase(s: State, t: Tid, svc: Svc, phase: Phase, ok: bool, id: nat)
    requires ExtrasInv(s) && PhaseOk(s, svc, phase)
    requires PhaseServer(phase).Some? ==> ServerOf(s, PhaseServer(phase).value, svc)
    requires phase.Bind? && ok ==> id !in s.bound
    ensures ExtrasInv(PhaseEffect(s, t, svc, phase, ok, id))
  {
  }

  lemma {:induction false} ExtrasKept(s: State, t: Tid, pc: Pc, ok: bool, id: nat)
    requires ExtrasInv(s) && PcServerOk(s, pc)
    requires pc.Attach? && !pc.phase.Lock? ==> PhaseOk(s, pc.svc, pc.phase)
    requires pc.StartBuild? && ok ==> id !in s.owner
    requires pc.Attach? && pc.phase.Bind? && ok ==> id !in s.bound
    requires s.owner.Keys == s.extras.Keys
    ensures ExtrasInv(Effect(s, t, pc, ok, id))
  {
    if pc.Attach? { ExtrasPhase(s, t, pc.svc, pc.phase, ok, id); }
  }

  lemma {:induction false} FlagsPhase(s: State, t: Tid, svc: Svc, phase: Phase, ok: bool, id: nat)
    requires FlagInv(s) && TrackInv(s, Done)
    ensures FlagInv(PhaseEffect(s, t, svc, phase, ok, id))
  {
  }

  lemma {:induction false} FlagsKept(s: State, t: Tid, pc: Pc, ok: bool, id: nat)
    requires FlagInv(s) && ExtrasInv(s) && TrackInv(s, Done)
    requires pc.StopClosing? && ok ==> pc.srv in s.extras && id in s.extras[pc.srv]
    ensures FlagInv(Effect(s, t, pc, ok, id))
  {
    if pc.Attach? { FlagsPhase(s, t, pc.svc, pc.phase, ok, id); }
  }

  lemma {:induction false} TrackPhase(s: State, t: Tid, svc: Svc, phase: Phase, sup: bool, ok: bool, id: nat)
    requires TrackInv(s, Attach(svc, phase, sup)) && FlagInv(s)
    requires phase.Bind? && ok ==> id !in s.bound
    ensures TrackInv(PhaseEffect(s, t, svc, phase, ok, id), Attach(svc, NextPhase(s, svc, phase, ok, id), sup))
  {
  }

  /** Steps outside the attach leave the lock holder's knowledge alone. */
  lemma {:induction false} TrackOther(s: State, t: Tid, pc: Pc, h: Pc, ok: bool, id: nat)
    requires TrackInv(s, h) && !pc.Attach? && (pc.StopReset? ==> !h.Attach?)
    ensures TrackInv(Effect(s, t, pc, ok, id), h)
  {
  }

  lemma {:induction false} LeakPhase(s: State, t: Tid, svc: Svc, phase: Phase, sup: bool, ok: bool, id: nat)
    requires var pc := Attach(svc, phase, sup); TrackInv(s, pc) && LeakInv(s, pc)
    requires phase.Bind? && ok ==> id !in s.bound
    ensures LeakInv(PhaseEffect(s, t, svc, phase, ok, id), Attach(svc, NextPhase(s, svc, phase, ok, id), sup))
  {
  }

  lemma {:induction false} LeakOther(s: State, t: Tid, pc: Pc, h: Pc, ok: bool, id: nat)
    requires TrackInv(s, h) && LeakInv(s, h) && !pc.Attach?
    ensures LeakInv(Effect(s, t, pc, ok, id), h)
  {
  }

  /** How a step changes who vouches for a service: its running flag, or the stepping thread's stop. */
  predicate StopMove(s: State, s1: State, pc: Pc, pc': Pc, svc: Svc) {
    && (svc in s.running ==> svc in s1.running || StopPending(pc', svc))
    && (StopPending(pc, svc) ==> StopPending(pc', svc) || pc == StopReset(svc))
    && (StopInFlight(pc, svc) ==> StopInFlight(pc', svc) || pc == StopReset(svc))
    && (PortCleared(pc) ==> PortCleared(pc') || pc == StopReset(Vnc))
  }

  lemma {:induction false} StopMoves(s: State, t: Tid, pc: Pc, ok: bool, id: nat, svc: Svc)
    ensures StopMove(s, Effect(s, t, pc, ok, id), pc, Next(s, pc, ok, id), svc)
  {
    if pc.Attach? { PhaseFrame(s, t, pc.svc, pc.phase, ok, id); }
  }

  lemma {:induction false} StopWitness(s: State, s': State, t: Tid, svc: Svc)
    requires t in s.pcs && t in s'.pcs && s'.pcs == s.pcs[t := s'.pcs[t]]
    requires StopMove(s, s', s.pcs[t], s'.pcs[t], svc)
    ensures s.pcs[t] != StopReset(svc) && Guarded(s, svc) ==> Guarded(s', svc)
    ensures s.pcs[t] != StopReset(svc) && SomeInFlight(s, svc) ==> SomeInFlight(s', svc)
    ensures s.pcs[t] != StopReset(Vnc) && SomePortCleared(s) ==> SomePortCleared(s')
    ensures StopPending(s'.pcs[t], svc) ==> SomePending(s', svc)
    ensures StopInFlight(s'.pcs[t], svc) ==> SomeInFlight(s', svc)
    ensures PortCleared(s'.pcs[t]) ==> SomePortCleared(s')
  {
    if u :| u in s.pcs && StopPending(s.pcs[u], svc) { assert u != t ==> u in s'.pcs && StopPending(s'.pcs[u], svc); }
    if u :| u in s.pcs && StopInFlight(s.pcs[u], svc) { assert u != t ==> u in s'.pcs && StopInFlight(s'.pcs[u], svc); }
    if u :| u in s.pcs && PortCleared(s.pcs[u]) { assert u != t ==> u in s'.pcs && PortCleared(s'.pcs[u]); }
  }

  /** Where a tracked entry and a closed one can come from in a step of an attach. */
  lemma {:induction false} OriginPhase(s: State, t: Tid, svc: Svc, phase: Phase, ok: bool, id: nat, v: Svc)
    requires TrackInv(s, Done) && FlagInv(s)
    requires phase.Bind? && ok ==> id !in s.bound
    ensures var s1, next := PhaseEffect(s, t, svc, phase, ok, id), NextPhase(s, svc, phase, ok, id);
            && (v in s1.tracked ==> v in s.tracked || (v == svc && phase.Track?))
            && (PastCheck(next) ==> PastCheck(phase) || svc in s.running)
            && (v in s1.tracked && s1.tracked[v] in s1.closed ==>
                  || (v in s.tracked && s.tracked[v] in s.closed && !(v == svc && phase.Untrack?))
                  || (v == svc && (phase.CloseOld? || (phase.Track? && phase.l in s.closed))))
            && ((next.Add? || next.Track?) && next.l in s1.closed ==>
                  (phase.Add? || phase.Track?) && phase.l == next.l && next.l in s.closed)
  {
  }

  /** The same for every other step: nothing new is tracked, and the port is only ever cleared by a stop. */
  lemma {:induction false} OriginOther(s: State, t: Tid, pc: Pc, ok: bool, id: nat)
    requires !pc.Attach?
    ensures var s1, pc' := Effect(s, t, pc, ok, id), Next(s, pc, ok, id);
            && s1.bound == s.bound && s1.dead == s.dead && s1.tracked.Keys <= s.tracked.Keys
            && (pc.StopReset? ==> pc.svc !in s1.tracked)
            && (forall v :: v in s1.tracked ==> s1.tracked[v] == s.tracked[v])
            && (s1.port == s.port || (s1.port == 0 && PortCleared(pc')))
  {
  }

  /** Only a stop closes, and only listeners of its own service. */
  lemma {:induction false} OriginCloses(s: State, t: Tid, pc: Pc, ok: bool, id: nat)
    requires TrackInv(s, Done) && ExtrasInv(s) && PcServerOk(s, pc) && !pc.Attach?
    requires pc.StopClosing? && ok ==> id in s.extras[pc.srv]
    ensures var s1, pc' := Effect(s, t, pc, ok, id), Next(s, pc, ok, id);
            forall l :: l in s1.closed && l !in s.closed ==>
              l in s.bound && (StopInFlight(pc', s.bound[l]) || (pc.StopReset? && s.bound[l] == pc.svc))
  {
  }

  /** Unless the step is the reset of `v`, whoever vouches for `v` still does. */
  lemma {:induction false} StopsStable(s: State, t: Tid, ok: bool, id: nat)
    requires Enabled(s, Run(t, ok, id))
    ensures var s', pc := Do(s, Run(t, ok, id)), s.pcs[t];
            && (forall v :: pc != StopReset(v) && Guarded(s, v) ==> Guarded(s', v))
            && (forall v :: pc != StopReset(v) && SomeInFlight(s, v) ==> SomeInFlight(s', v))
            && (forall v :: StopInFlight(s'.pcs[t], v) ==> SomeInFlight(s', v))
            && (pc != StopReset(Vnc) && SomePortCleared(s) ==> SomePortCleared(s'))
            && (PortCleared(s'.pcs[t]) ==> SomePortCleared(s'))
  {
    var s', pc := Do(s, Run(t, ok, id)), s.pcs[t];
    LockMoves(s, t, pc, ok, id);
    forall v
      ensures pc != StopReset(v) && Guarded(s, v) ==> Guarded(s', v)
      ensures pc != StopReset(v) && SomeInFlight(s, v) ==> SomeInFlight(s', v)
      ensures StopInFlight(s'.pcs[t], v) ==> SomeInFlight(s', v)
    {
      StopMoves(s, t, pc, ok, id, v);
      StopWitness(s, s', t, v);
    }
    StopMoves(s, t, pc, ok, id, Vnc);
    StopWitness(s, s', t, Vnc);
  }

  lemma {:induction false} HolderGuards(s: State, s': State, t: Tid, ok: bool, id: nat)
    requires Enabled(s, Run(t, ok, id)) && s' == Do(s, Run(t, ok, id))
    requires s.pcs[t].Attach? && !s.pcs[t].phase.Lock?
    requires StopInv(s, s.pcs[t]) && TrackInv(s, Done) && FlagInv(s)
    ensures StopInv(s', s'.pcs[t])
  {
    var Attach(svc, phase, sup) := s.pcs[t];
    PhaseFrame(s, t, svc, phase, ok, id);
    StopsStable(s, t, ok, id);
    forall v: Svc { OriginPhase(s, t, svc, phase, ok, id, v); }
  }

  lemma {:induction false} HolderCloses(s: State, s': State, t: Tid, ok: bool, id: nat)
    requires Enabled(s, Run(t, ok, id)) && s' == Do(s, Run(t, ok, id))
    requires s.pcs[t].Attach? && !s.pcs[t].phase.Lock?
    requires ClosedInv(s, s.pcs[t]) && TrackInv(s, s.pcs[t]) && FlagInv(s)
    ensures ClosedInv(s', s'.pcs[t])
  {
    var Attach(svc, phase, sup) := s.pcs[t];
    StopsStable(s, t, ok, id);
    forall v: Svc { OriginPhase(s, t, svc, phase, ok, id, v); }
  }

  lemma {:induction false} PortPhase(s: State, t: Tid, svc: Svc, phase: Phase, sup: bool, ok: bool, id: nat)
    requires PhaseOk(s, svc, phase)
    requires Live(s, Vnc) ==> s.port == VNC_PORT || SettingPort(Attach(svc, phase, sup))
    ensures var s1 := PhaseEffect(s, t, svc, phase, ok, id);
            Live(s1, Vnc) ==> s1.port == VNC_PORT || SettingPort(Attach(svc, NextPhase(s, svc, phase, ok, id), sup))
  {
  }

  lemma {:induction false} HolderPort(s: State, s': State, t: Tid, ok: bool, id: nat)
    requires Enabled(s, Run(t, ok, id)) && s' == Do(s, Run(t, ok, id))
    requires s.pcs[t].Attach? && !s.pcs[t].phase.Lock?
    requires PortInv(s, s.pcs[t]) && TrackInv(s, s.pcs[t])
    ensures PortInv(s', s'.pcs[t])
  {
    var Attach(svc, phase, sup) := s.pcs[t];
    StopsStable(s, t, ok, id);
    if !SomePortCleared(s) { PortPhase(s, t, svc, phase, sup, ok, id); }
  }

  lemma {:induction false} OtherGuards(s: State, s': State, t: Tid, h: Pc, ok: bool, id: nat)
    requires Enabled(s, Run(t, ok, id)) && s' == Do(s, Run(t, ok, id)) && !s.pcs[t].Attach?
    requires TrackInv(s, h) && ExtrasInv(s) && PcServerOk(s, s.pcs[t]) && (s.pcs[t].StopReset? ==> h == s.pcs[t])
    requires StopInv(s, h) && PortInv(s, h)
    ensures StopInv(s', h) && PortInv(s', h)
  {
    OriginOther(s, t, s.pcs[t], ok, id);
    StopsStable(s, t, ok, id);
  }

  lemma {:induction false} ClosedKept(s: State, s': State, pc: Pc, pc': Pc, h: Pc)
    requires TrackInv(s, h) && ClosedInv(s, h) && (pc.StopReset? ==> h == pc)
    requires s'.tracked.Keys <= s.tracked.Keys && (pc.StopReset? ==> pc.svc !in s'.tracked)
    requires forall v :: v in s'.tracked ==> s'.tracked[v] == s.tracked[v]
    requires forall l :: l in s'.closed && l !in s.closed ==>
               l in s.bound && (StopInFlight(pc', s.bound[l]) || (pc.StopReset? && s.bound[l] == pc.svc))
    requires forall v :: pc != StopReset(v) && SomeInFlight(s, v) ==> SomeInFlight(s', v)
    requires forall v :: StopInFlight(pc', v) ==> SomeInFlight(s', v)
    ensures ClosedInv(s', h)
  {
  }

  lemma {:induction false} OtherCloses(s: State, s': State, t: Tid, h: Pc, ok: bool, id: nat)
    requires Enabled(s, Run(t, ok, id)) && s' == Do(s, Run(t, ok, id)) && !s.pcs[t].Attach?
    requires TrackInv(s, h) && ExtrasInv(s) && PcServerOk(s, s.pcs[t]) && (s.pcs[t].StopReset? ==> h == s.pcs[t])
    requires ClosedInv(s, h)
    ensures ClosedInv(s', h)
  {
    OriginOther(s, t, s.pcs[t], ok, id);
    OriginCloses(s, t, s.pcs[t], ok, id);
    StopsStable(s, t, ok, id);
    ClosedKept(s, s', s.pcs[t], s'.pcs[t], h);
  }

  /** The claims on the tracked listener do not look at the threads. */
  lemma {:induction false} TrackSame(s1: State, s': State, h: Pc)
    requires s' == s1.(pcs := s'.pcs) && TrackInv(s1, h)
    ensures TrackInv(s', h)
  {
  }

  lemma {:induction false} LeakSame(s1: State, s': State, h: Pc)
    requires s' == s1.(pcs := s'.pcs) && LeakInv(s1, h)
    ensures LeakInv(s', h)
  {
    assert forall l :: Accounted(s', h, l) <==> Accounted(s1, h, l);
  }

  /** An attach past its lock: effect, next phase and what becomes of the release. */
  lemma {:induction false} HolderTracks(s: State, s': State, t: Tid, ok: bool, id: nat)
    requires Enabled(s, Run(t, ok, id)) && s' == Do(s, Run(t, ok, id))
    requires s.pcs[t].Attach? && !s.pcs[t].phase.Lock?
    requires TrackInv(s, s.pcs[t]) && LeakInv(s, s.pcs[t]) && FlagInv(s)
    ensures TrackInv(s', s'.pcs[t]) && LeakInv(s', s'.pcs[t])
  {
    var Attach(svc, phase, sup) := s.pcs[t];
    var s1, h := PhaseEffect(s, t, svc, phase, ok, id), Attach(svc, NextPhase(s, svc, phase, ok, id), sup);
    TrackPhase(s, t, svc, phase, sup, ok, id);
    LeakPhase(s, t, svc, phase, sup, ok, id);
    TrackSame(s1, s', h);
    LeakSame(s1, s', h);
    if phase.Unlock? { Released(s', h, s'.pcs[t]); }
  }

  lemma {:induction false} Released(s: State, h: Pc, h': Pc)
    requires TrackInv(s, h) && LeakInv(s, h) && h.Attach? && h.phase.Unlock? && !h'.Attach?
    ensures TrackInv(s, h') && LeakInv(s, h')
  {
    assert forall l :: Accounted(s, h, l) ==> Accounted(s, h', l);
  }

  lemma {:induction false} HolderRun(s: State, s': State, t: Tid, ok: bool, id: nat)
    requires Enabled(s, Run(t, ok, id)) && s' == Do(s, Run(t, ok, id))
    requires s.pcs[t].Attach? && !s.pcs[t].phase.Lock?
    requires HolderInv(s, s.pcs[t]) && FlagInv(s)
    ensures HolderInv(s', s'.pcs[t])
  {
    HolderTracks(s, s', t, ok, id);
    HolderGuards(s, s', t, ok, id);
    HolderCloses(s, s', t, ok, id);
    HolderPort(s, s', t, ok, id);
  }

  lemma {:induction false} OtherRun(s: State, s': State, t: Tid, h: Pc, ok: bool, id: nat)
    requires Enabled(s, Run(t, ok, id)) && s' == Do(s, Run(t, ok, id)) && !s.pcs[t].Attach?
    requires ExtrasInv(s) && PcServerOk(s, s.pcs[t]) && (s.pcs[t].StopReset? ==> h == s.pcs[t])
    requires HolderInv(s, h)
    ensures HolderInv(s', h)
  {
    TrackOther(s, t, s.pcs[t], h, ok, id);
    LeakOther(s, t, s.pcs[t], h, ok, id);
    OtherGuards(s, s', t, h, ok, id);
    OtherCloses(s, s', t, h, ok, id);
  }

  /** Waiting attaches only take the lock. */
  lemma {:induction false} LockRun(s: State, s': State, t: Tid, ok: bool, id: nat)
    requires Enabled(s, Run(t, ok, id)) && s' == Do(s, Run(t, ok, id))
    requires s.pcs[t].Attach? && s.pcs[t].phase.Lock? && HolderInv(s, Done)
    ensures HolderInv(s', s'.pcs[t])
  {
    StopsStable(s, t, ok, id);
  }

  lemma {:induction false} HolderHandsOver(s: State, h: Pc, h': Pc)
    requires HolderInv(s, h) && (h == h' || (!h.Attach? && !h'.Attach?))
    ensures HolderInv(s, h')
  {
  }

  /** Who holds the lock before and after a step of `t`. */
  lemma {:induction false} HolderMoves(s: State, s': State, t: Tid, ok: bool, id: nat)
    requires MutexInv(s) && Enabled(s, Run(t, ok, id)) && s' == Do(s, Run(t, ok, id))
    ensures MutexInv(s')
    ensures var pc, pc' := s.pcs[t], s'.pcs[t];
            if InCritical(pc) then Holder(s) == pc && (Holder(s') == pc' || (Holder(s') == Done && !pc'.Attach?))
            else if WantsLock(pc) then Holder(s) == Done && Holder(s') == pc'
            else Holder(s') == Holder(s)
  {
    LockMoves(s, t, s.pcs[t], ok, id);
    MutexKept(s, Effect(s, t, s.pcs[t], ok, id), t, s'.pcs[t]);
  }

  lemma {:induction false} AttachRun(s: State, s': State, t: Tid, h': Pc, ok: bool, id: nat)
    requires Enabled(s, Run(t, ok, id)) && s' == Do(s, Run(t, ok, id))
    requires s.pcs[t].Attach? && !s.pcs[t].phase.Lock?
    requires HolderInv(s, s.pcs[t]) && FlagInv(s)
    requires h' == s'.pcs[t] || (!s'.pcs[t].Attach? && !h'.Attach?)
    ensures HolderInv(s', h')
  {
    HolderRun(s, s', t, ok, id);
    HolderHandsOver(s', s'.pcs[t], h');
  }

  lemma {:induction false} ElseRun(s: State, s': State, t: Tid, h: Pc, h': Pc, ok: bool, id: nat)
    requires Enabled(s, Run(t, ok, id)) && s' == Do(s, Run(t, ok, id)) && !s.pcs[t].Attach?
    requires ExtrasInv(s) && PcServerOk(s, s.pcs[t]) && (s.pcs[t].StopReset? ==> h == s.pcs[t])
    requires HolderInv(s, h) && (h == h' || (!h.Attach? && !h'.Attach?))
    ensures HolderInv(s', h')
  {
    OtherRun(s, s', t, h, ok, id);
    HolderHandsOver(s', h, h');
  }

  /** How the lock holder changes with a step of `t`, as far as attaches are concerned. */
  lemma {:induction false} HolderChange(s: State, s': State, t: Tid, ok: bool, id: nat)
    requires MutexInv(s) && Enabled(s, Run(t, ok, id)) && s' == Do(s, Run(t, ok, id))
    ensures var pc, pc', h, h' := s.pcs[t], s'.pcs[t], Holder(s), Holder(s');
            if pc.Attach? && pc.phase.Lock? then h == Done && h' == pc'
            else if pc.Attach? then h == pc && (h' == pc' || (!pc'.Attach? && !h'.Attach?))
            else (pc.StopReset? ==> h == pc) && (h == h' || (!h.Attach? && !h'.Attach?))
  {
    HolderMoves(s, s', t, ok, id);
  }

  lemma {:induction false} RunHolder(s: State, s': State, t: Tid, h: Pc, h': Pc, ok: bool, id: nat)
    requires Enabled(s, Run(t, ok, id)) && s' == Do(s, Run(t, ok, id))
    requires ExtrasInv(s) && PcServerOk(s, s.pcs[t]) && FlagInv(s) && HolderInv(s, h)
    requires var pc, pc' := s.pcs[t], s'.pcs[t];
            if pc.Attach? && pc.phase.Lock? then h == Done && h' == pc'
            else if pc.Attach? then h == pc && (h' == pc' || (!pc'.Attach? && !h'.Attach?))
            else (pc.StopReset? ==> h == pc) && (h == h' || (!h.Attach? && !h'.Attach?))
    ensures HolderInv(s', h')
  {
    if s.pcs[t].Attach? && s.pcs[t].phase.Lock? {
      LockRun(s, s', t, ok, id);
    } else if s.pcs[t].Attach? {
      AttachRun(s, s', t, h', ok, id);
    } else {
      ElseRun(s, s', t, h, h', ok, id);
    }
  }

  lemma {:induction false} RunServes(s: State, s': State, t: Tid, ok: bool, id: nat)
    requires ServerInv(s) && Enabled(s, Run(t, ok, id)) && s' == Do(s, Run(t, ok, id))
    ensures ServerInv(s')
  {
    PublishKept(s, t, s.pcs[t], ok, id);
    ServerKept(s, t, Effect(s, t, s.pcs[t], ok, id), s'.pcs[t]);
  }

  lemma {:induction false} ExtrasSame(s1: State, s': State)
    requires s' == s1.(pcs := s'.pcs) && ExtrasInv(s1) && FlagInv(s1)
    ensures ExtrasInv(s') && FlagInv(s')
  {
  }

  lemma {:induction false} RunLists(s: State, s': State, t: Tid, h: Pc, ok: bool, id: nat)
    requires ServerInv(s) && ExtrasInv(s) && FlagInv(s) && TrackInv(s, h)
    requires Enabled(s, Run(t, ok, id)) && s' == Do(s, Run(t, ok, id))
    requires s.pcs[t].Attach? && !s.pcs[t].phase.Lock? ==> h == s.pcs[t]
    ensures ExtrasInv(s') && FlagInv(s')
  {
    var pc := s.pcs[t];
    ExtrasKept(s, t, pc, ok, id);
    FlagsKept(s, t, pc, ok, id);
    ExtrasSame(Effect(s, t, pc, ok, id), s');
  }

  lemma {:induction false} RunKeeps(s: State, t: Tid, ok: bool, id: nat)
    requires Inv(s) && Enabled(s, Run(t, ok, id))
    ensures Inv(Do(s, Run(t, ok, id)))
  {
    var s' := Do(s, Run(t, ok, id));
    HolderMoves(s, s', t, ok, id);
    HolderChange(s, s', t, ok, id);
    RunServes(s, s', t, ok, id);
    RunLists(s, s', t, Holder(s), ok, id);
    RunHolder(s, s', t, Holder(s), Holder(s'), ok, id);
  }

  lemma {:induction false} SpawnKeeps(s: State, t: Tid, pc: Pc)
    requires Inv(s) && Enabled(s, Spawn(t, pc))
    ensures Inv(Do(s, Spawn(t, pc)))
  {
    var s' := Do(s, Spawn(t, pc));
    assert Holder(s') == Holder(s);
    forall v ensures Guarded(s, v) ==> Guarded(s', v)
             ensures SomeInFlight(s, v) ==> SomeInFlight(s', v)
    {
      if u :| u in s.pcs && StopPending(s.pcs[u], v) { assert u in s'.pcs && StopPending(s'.pcs[u], v); }
      if u :| u in s.pcs && StopInFlight(s.pcs[u], v) { assert u in s'.pcs && StopInFlight(s'.pcs[u], v); }
    }
    if u :| u in s.pcs && PortCleared(s.pcs[u]) { assert u in s'.pcs && PortCleared(s'.pcs[u]); }
  }

  lemma {:induction false} ListenerHolder(s: State, s': State, h: Pc)
    requires HolderInv(s, h) && s.dead <= s'.dead
    requires s' == s.(torn := s'.torn, marking := s'.marking, dead := s'.dead)
    ensures HolderInv(s', h)
  {
    assert forall v :: Guarded(s', v) <==> Guarded(s, v);
    assert forall v :: SomeInFlight(s', v) <==> SomeInFlight(s, v);
    assert forall v :: Live(s', v) ==> Live(s, v);
  }

  lemma {:induction false} ListenerKeeps(s: State, st: Step)
    requires Inv(s) && Enabled(s, st) && (st.TearDown? || st.AcceptObserve? || st.AcceptMark?)
    ensures Inv(Do(s, st))
  {
    var s' := Do(s, st);
    ListenerHolder(s, s', Holder(s));
    forall u | u in s'.pcs ensures PcServerOk(s', s'.pcs[u]) { PcServerGrows(s, s', s.pcs[u]); }
  }

  /** Every step of every thread, and every tear-down, keeps the invariant. */
  lemma {:induction false} StepKeeps(s: State, st: Step)
    requires Inv(s) && Enabled(s, st)
    ensures Inv(Do(s, st))
  {
    match st
    case Spawn(t, pc) => SpawnKeeps(s, t, pc);
    case Run(t, ok, id) => RunKeeps(s, t, ok, id);
    case _ => ListenerKeeps(s, st);
  }

  lemma {:induction false} RunInv(states: seq<State>, steps: seq<Step>, i: nat)
    requires IsRun(states, steps) && Inv(states[0]) && i < |states|
    ensures Inv(states[i])
  {
    if i > 0 {
      RunInv(states, steps, i - 1);
      assert StepOk(states, steps, i - 1);
      StepKeeps(states[i - 1], steps[i - 1]);
    }
  }
}
