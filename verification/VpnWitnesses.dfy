/**
 Runs from the start of the control center that end where a promise about its listeners does not hold.

 Each method drives the code of `ControlCenter` through one schedule and hands out the run of the thread
 machine it performed.
 */
module VpnWitnesses {
  import opened Prelude
  import opened VpnListeners
  import opened VpnInvariant
  import opened VpnTheorems
  import opened VpnServed
  import opened VpnPort
  import opened ControlCenter

  /** `run` leads from the initial state to where the control center is. */
  ghost predicate Led(c: Center, run: Past)
    reads c
  {
    c.Same() && RunFromInit(run.states, run.steps) && run.states[|run.steps|] == c.s
  }

  lemma {:induction false} Chain(a: Past, b: Past)
    requires IsRun(a.states, a.steps) && IsRun(b.states, b.steps) && a.states[|a.steps|] == b.states[0]
    ensures var c := Past(a.states + b.states[1..], a.steps + b.steps);
            IsRun(c.states, c.steps) && c.states[0] == a.states[0] && c.states[|c.steps|] == b.states[|b.steps|]
  {
    var c := Past(a.states + b.states[1..], a.steps + b.steps);
    forall i | 0 <= i < |c.steps| ensures StepOk(c.states, c.steps, i) {
      if i < |a.steps| {
        assert StepOk(a.states, a.steps, i);
      } else {
        assert StepOk(b.states, b.steps, i - |a.steps|);
        assert c.states[i] == b.states[i - |a.steps|];
      }
    }
  }

  function Then(a: Past, b: Past): Past
    requires b.states != []
  {
    Past(a.states + b.states[1..], a.steps + b.steps)
  }

  /** One step of the environment. */
  ghost method Happening(c: Center, run: Past, st: Step) returns (run': Past)
    requires Led(c, run) && Enabled(c.s, st) && (st.Spawn? || st.TearDown? || st.AcceptObserve?)
    modifies c`s, c`origin, c`past
    ensures Led(c, run') && c.Fresh() && c.s == Do(old(c.s), st)
  {
    Lengthen(run.states, run.steps, st);
    run' := Past(run.states + [Do(c.s, st)], run.steps + [st]);
    c.Happens(st);
  }

  /** A whole start of `svc` by a new thread, with the network up. */
  method StartUp(c: Center, ghost run: Past, t: Tid, svc: Svc, srv: Srv, l: Lid) returns (ghost run': Past)
    requires Led(c, run) && t !in c.s.pcs && svc !in c.running && srv !in c.s.owner && l !in c.s.bound && c.s.lock.None?
    modifies c
    ensures Led(c, run') && c.s.lock.None? && c.running == old(c.running) + {svc} && c.At(t, Done)
    ensures c.server == old(c.server)[svc := srv]
    ensures c.tracked == TrackedAfter(old(c.tracked), old(c.dead), svc, true, Some(l))
    ensures c.closed == ClosedAfter(old(c.tracked), old(c.dead), old(c.closed), svc, true)
    ensures c.port == PortAfter(old(c.tracked), old(c.dead), old(c.port), svc, true, Some(l))
    ensures c.s.owner.Keys <= old(c.s.owner).Keys + {srv} && c.s.bound.Keys <= old(c.s.bound).Keys + {l}
    ensures Others(old(c.s), c.s, t)
  {
    run' := Happening(c, run, Spawn(t, StartLoad(svc)));
    var _ := c.Start(t, svc, Some(srv), true, Some(l));
    Chain(run', c.past);
    OthersStay(c.past, t);
    run' := Then(run', c.past);
  }

  /** Apart from thread `t` nothing moved, and no binding met its fate. */
  ghost predicate Others(s: State, s': State, t: Tid) {
    && s'.torn == s.torn && s'.marking == s.marking && s'.dead == s.dead
    && forall u :: u != t ==> (u in s'.pcs <==> u in s.pcs) && (u in s.pcs && u in s'.pcs ==> s'.pcs[u] == s.pcs[u])
  }

  lemma {:induction false} OthersStay(past: Past, t: Tid)
    requires IsRun(past.states, past.steps)
    requires forall i :: 0 <= i < |past.steps| ==> past.steps[i].Run? && past.steps[i].t == t
    ensures Others(past.states[0], past.states[|past.steps|], t)
  {
    SegmentFrame(past.states, past.steps, t, |past.steps|);
    var a, b := past.states[0].pcs, past.states[|past.steps|].pcs;
    forall u | u != t ensures (u in b <==> u in a) && (u in a && u in b ==> b[u] == a[u]) {
      assert u in b - {t} <==> u in a - {t};
      if u in a { assert (b - {t})[u] == (a - {t})[u]; }
    }
  }

  /** A new VNC stop gets as far as its port clear. */
  method StopToPort(c: Center, ghost run: Past, t: Tid) returns (ghost run': Past)
    requires Led(c, run) && t !in c.s.pcs && Vnc in c.running
    modifies c
    ensures Led(c, run') && c.s.lock == old(c.s).lock && c.At(t, StopPort) && c.running == old(c.running) - {Vnc}
    ensures c.tracked == old(c.tracked) && c.s.owner == old(c.s).owner && c.s.bound == old(c.s).bound
    ensures Others(old(c.s), c.s, t) && c.closed <= c.s.bound.Keys
  {
    run' := Happening(c, run, Spawn(t, StopLoad(Vnc)));
    c.Moves(t, StopLoad(Vnc), true);
    c.StopServing(t, Vnc);
    Chain(run', c.past);
    OthersStay(c.past, t);
    run' := Then(run', c.past);
    ReachedInv(run'.states, run'.steps, |run'.steps|);
  }

  /** A listener that is still open dies: its binding is torn down and its accept loop records it. */
  method Die(c: Center, ghost run: Past, l: Lid) returns (ghost run': Past)
    requires Led(c, run) && l in c.s.bound && l !in c.closed
    modifies c
    ensures Led(c, run') && c.s == Died(old(c.s), l)
  {
    run' := Happening(c, run, TearDown(l));
    Lengthen(run'.states, run'.steps, AcceptObserve(l));
    run' := Past(run'.states + [Do(c.s, AcceptObserve(l))], run'.steps + [AcceptObserve(l)]);
    Lengthen(run'.states, run'.steps, AcceptMark(l));
    run' := Past(run'.states + [Do(Do(c.s, AcceptObserve(l)), AcceptMark(l))], run'.steps + [AcceptMark(l)]);
    c.AcceptFailed(l);
  }

  // ---- the schedules ----

  /** The service was started by thread 1, with the supervisor, thread 4, between ticks. */
  ghost predicate Up(s: State, svc: Svc) {
    && s.lock.None? && s.running == {svc} && s.server == map[svc := 10] && s.tracked == map[svc := 100]
    && s.port == (if svc == Vnc then VNC_PORT else 0)
    && s.closed == {} && s.dead == {} && s.torn == {} && s.marking == {}
    && 100 in s.bound && s.bound.Keys <= {100} && s.owner.Keys <= {10}
    && s.pcs.Keys == {1, 4} && s.pcs[1] == Done && s.pcs[4] == SupTick(true)
  }

  method ServiceUp(svc: Svc) returns (c: Center, ghost run: Past)
    ensures fresh(c) && Led(c, run) && Up(c.s, svc)
  {
    c := new Center();
    run := Past([c.s], []);
    run := Happening(c, run, Spawn(4, SupTick(true)));
    ghost var s := c.s;
    run := StartUp(c, run, 1, svc, 10, 100);
    OneMore(s, c.s, 1);
    TrackedIsBound(run, svc);
  }

  lemma {:induction false} TrackedIsBound(run: Past, svc: Svc)
    requires RunFromInit(run.states, run.steps)
    ensures var s := run.states[|run.steps|]; svc in s.tracked ==> s.tracked[svc] in s.bound
  {
    ReachedInv(run.states, run.steps, |run.steps|);
  }

  /**
   A start overtakes a VNC stop whose listener had died: the stop has cleared the flag, the start rebinds
   and advertises, the stop clears the port, and a full connected tick (the last six steps) finds all
   healthy. The desktop is reachable over an open listener and no port is advertised.
   */
  method OvertakenStop() returns (ghost run: Past)
    ensures RunFromInit(run.states, run.steps) && |run.steps| >= 7
    ensures forall k :: |run.steps| - 6 <= k < |run.steps| ==> run.steps[k] == Run(4, true, 0)
    ensures var s := run.states[|run.steps| - 6]; 4 in s.pcs && s.pcs[4] == SupTick(true)
    ensures var s := run.states[|run.steps|];
            && 4 in s.pcs && s.pcs[4] == SupTick(true) && s.lock.None? && Vnc in s.running && Vnc in s.tracked
            && s.tracked[Vnc] !in s.closed + s.torn + s.dead && s.port == 0
  {
    var c;
    c, run := ServiceUp(Vnc);
    run := Die(c, run, 100);
    run := Overtake(c, run);
    ghost var states, steps := OvertakenStopHidesPort(c.s, 2, 4);
    Chain(run, Past(states, steps));
    ghost var whole, n := Then(run, Past(states, steps)), |run.steps|;
    assert whole.states[n + 1] == states[1] && forall k :: n < k < n + 7 ==> whole.steps[k] == steps[k - n];
    run := whole;
  }

  /** With the first listener dead, a stop clears the flag and a second start rebinds before the stop's port clear. */
  method Overtake(c: Center, ghost run: Past) returns (ghost run': Past)
    requires Led(c, run) && c.s.lock.None? && c.running == {Vnc} && c.tracked == map[Vnc := 100] && c.dead == {100}
    requires c.s.torn == {100}
    requires 101 !in c.s.bound && 11 !in c.s.owner && c.s.pcs.Keys <= {1, 4} && c.At(4, SupTick(true))
    modifies c
    ensures Led(c, run') && c.s.lock.None? && c.running == {Vnc} && c.tracked == map[Vnc := 101]
    ensures 101 !in c.closed + c.dead + c.s.torn && c.At(2, StopPort) && c.At(4, SupTick(true))
  {
    ghost var s := c.s;
    run' := StopToPort(c, run, 2);
    OneMore(s, c.s, 2);
    run' := Rebind(c, run');
  }

  /** The second start, while the stop stands before its port clear. */
  method Rebind(c: Center, ghost run: Past) returns (ghost run': Past)
    requires Led(c, run) && c.s.lock.None? && c.running == {} && c.tracked == map[Vnc := 100] && c.dead == {100}
    requires c.s.torn == {100} && c.closed <= c.s.bound.Keys
    requires 101 !in c.s.bound && 11 !in c.s.owner && 3 !in c.s.pcs && c.At(2, StopPort) && c.At(4, SupTick(true))
    modifies c
    ensures Led(c, run') && c.s.lock.None? && c.running == {Vnc} && c.tracked == map[Vnc := 101]
    ensures 101 !in c.closed + c.dead + c.s.torn && c.At(2, StopPort) && c.At(4, SupTick(true))
  {
    run' := StartUp(c, run, 3, Vnc, 11, 101);
  }

  /**
   A listener closed by a stop is recorded dead in the last step, because its accept loop had looked at
   the flag before.
   */
  method DeadAfterClose() returns (ghost run: Past)
    ensures RunFromInit(run.states, run.steps) && run.steps != []
    ensures var s := run.states[|run.steps| - 1]; 100 in s.closed && 100 in s.marking && 100 !in s.dead
    ensures var s := run.states[|run.steps|]; 100 in s.closed && 100 in s.dead
  {
    var c;
    c, run := ServiceUp(Vnc);
    run := Happening(c, run, TearDown(100));
    run := Happening(c, run, AcceptObserve(100));
    run := StopAll(c, run, 2, Vnc);
    Lengthen(run.states, run.steps, AcceptMark(100));
    run := Past(run.states + [Do(c.s, AcceptMark(100))], run.steps + [AcceptMark(100)]);
  }

  /** A whole stop by a new thread. */
  method StopAll(c: Center, ghost run: Past, t: Tid, svc: Svc) returns (ghost run': Past)
    requires Led(c, run) && t !in c.s.pcs && svc in c.running && svc in c.tracked && c.s.lock.None?
    modifies c
    ensures Led(c, run') && old(c.tracked)[svc] in c.closed && Others(old(c.s), c.s, t) && c.s.lock.None?
    ensures c.At(t, Done)
    ensures c.running == old(c.running) - {svc} && c.tracked == old(c.tracked) - {svc} && c.server == old(c.server)
    ensures c.s.bound == old(c.s.bound) && c.s.owner == old(c.s.owner)
  {
    run' := Happening(c, run, Spawn(t, StopLoad(svc)));
    c.Stop(t, svc);
    Chain(run', c.past);
    OthersStay(c.past, t);
    run' := Then(run', c.past);
  }

  /**
   The listener dies during a tick, right after its check: the tick ends with the port advertised and
   nothing live.
   */
  method LateMark() returns (ghost run: Past)
    ensures RunFromInit(run.states, run.steps) && |run.steps| >= 9
    ensures var states, steps := run.states[|run.steps| - 9..], run.steps[|run.steps| - 9..];
            && states[0].pcs.Keys >= {4} && 100 in states[0].bound && 100 !in states[0].closed
            && states == LateStates(states[0], 4, 100) && steps == LateSteps(4, 100)
            && TooLate(states[6], steps[6], 4, Vnc) && TooLateForPort(states[6], steps[6], 4)
    ensures var s := run.states[|run.steps|];
            4 in s.pcs && s.pcs[4] == SupTick(true) && s.lock.None? &&
            Vnc in s.running && !Live(s, Vnc) && s.port == VNC_PORT
  {
    var c;
    c, run := ServiceUp(Vnc);
    ReachedInv(run.states, run.steps, |run.steps|);
    LateMarkBreaks(c.s, 4, 100);
    ghost var late := Past(LateStates(c.s, 4, 100), LateSteps(4, 100));
    Chain(run, late);
    ghost var whole := Then(run, late);
    assert whole.states[|run.steps|..] == late.states && whole.steps[|run.steps|..] == late.steps;
    run := whole;
  }

  // ---- a listener on a server nobody publishes ----

  /**
   After a disconnected poll and a connected one the supervisor has seen the service running and waits
   for the mutex.
   */
  method ToAttach(c: Center, ghost run: Past, svc: Svc) returns (ghost run': Past)
    requires Led(c, run) && c.At(4, SupTick(true)) && c.running == {svc} && svc != H264
    modifies c`s, c`origin, c`past
    ensures Led(c, run') && c.At(4, Attach(svc, Lock, true)) && Others(old(c.s), c.s, 4)
    ensures c.s == old(c.s).(pcs := c.s.pcs)
  {
    c.Begin();
    Reconnects(c);
    Checks(c, svc);
    Chain(run, c.past);
    OthersStay(c.past, 4);
    run' := Then(run, c.past);
  }

  /** The supervisor comes to a running service, past one that is down. */
  ghost method Checks(c: Center, svc: Svc)
    requires c.Valid(4) && c.At(4, SupCheck(Terminal)) && c.running == {svc} && svc != H264
    modifies c`s, c`past
    ensures c.Valid(4) && c.At(4, Attach(svc, Lock, true)) && c.s == old(c.s).(pcs := c.s.pcs)
  {
    if svc == Vnc { c.Moves(4, SupCheck(Terminal), true); }
    c.Moves(4, SupCheck(svc), true);
  }

  ghost method Reconnects(c: Center)
    requires c.Valid(4) && c.At(4, SupTick(true))
    modifies c`s, c`past
    ensures c.Valid(4) && c.At(4, SupCheck(Terminal)) && c.s == old(c.s).(pcs := c.s.pcs)
  {
    c.Moves(4, SupTick(true), false);
    c.Moves(4, SupTick(false), true);
  }

  /** It takes the mutex and loads the server pointer. */
  method LoadOld(c: Center, ghost run: Past) returns (ghost run': Past)
    requires Led(c, run) && c.At(4, Attach(Terminal, Lock, true)) && c.s.lock.None? && Terminal in c.server
    modifies c`s, c`origin, c`past
    ensures Led(c, run') && c.At(4, Attach(Terminal, LoadRunning(Some(c.server[Terminal])), true))
    ensures Others(old(c.s), c.s, 4)
    ensures c.s == old(c.s).(lock := Some(4), pcs := c.s.pcs)
  {
    c.Begin();
    c.Locks(4, Attach(Terminal, Lock, true));
    c.Looks(4, Terminal, true, LoadServer, true);
    Chain(run, c.past);
    OthersStay(c.past, 4);
    run' := Then(run, c.past);
  }

  /** A new start publishes its server and sets the flag, and now waits for the mutex. */
  method Relaunch(c: Center, ghost run: Past, t: Tid, srv: Srv) returns (ghost run': Past)
    requires Led(c, run) && t !in c.s.pcs && Terminal !in c.running && srv !in c.s.owner
    modifies c
    ensures Led(c, run') && c.At(t, Attach(Terminal, Lock, false)) && Others(old(c.s), c.s, t)
    ensures c.running == old(c.running) + {Terminal} && c.server == old(c.server)[Terminal := srv]
    ensures c.extras == old(c.extras)[srv := {}]
    ensures c.tracked == old(c.tracked) && c.s.bound == old(c.s).bound
  {
    run' := Happening(c, run, Spawn(t, StartLoad(Terminal)));
    c.Moves(t, StartLoad(Terminal), true);
    c.Launch(t, Terminal, srv);
    Chain(run', c.past);
    OthersStay(c.past, t);
    run' := Then(run', c.past);
  }

  /** The supervisor finds the flag set and binds for the server it has loaded. */
  method BindOld(c: Center, ghost run: Past, srv: Srv, l: Lid) returns (ghost run': Past)
    requires Led(c, run) && c.At(4, Attach(Terminal, LoadRunning(Some(srv)), true)) && Terminal in c.running
    requires Terminal !in c.tracked
    requires srv in c.extras && l !in c.s.bound
    modifies c
    ensures Led(c, run') && c.s.lock.None? && c.At(4, SupCheck(Vnc)) && Others(old(c.s), c.s, 4)
    ensures c.running == old(c.running) && c.server == old(c.server) && c.tracked == old(c.tracked)[Terminal := l]
    ensures forall x :: x in old(c.extras) && x != srv ==> x in c.extras && c.extras[x] == old(c.extras)[x]
  {
    c.Begin();
    c.Looks(4, Terminal, true, LoadRunning(Some(srv)), true);
    c.Refresh(4, Terminal, true, srv, true, Some(l));
    c.Unlocks(4, Attach(Terminal, Unlock, true));
    Chain(run, c.past);
    OthersStay(c.past, 4);
    run' := Then(run, c.past);
  }

  /** The waiting start finds a live listener and leaves everything as it is. */
  method FinishStart(c: Center, ghost run: Past, t: Tid) returns (ghost run': Past)
    requires Led(c, run) && c.At(t, Attach(Terminal, Lock, false)) && c.s.lock.None? && Terminal in c.running
    requires LiveIn(c.tracked, c.dead, Terminal)
    modifies c
    ensures Led(c, run') && c.s.lock.None? && c.At(t, Done) && Others(old(c.s), c.s, t)
    ensures c.running == old(c.running) && c.server == old(c.server) && c.tracked == old(c.tracked)
    ensures c.extras == old(c.extras)
  {
    c.Begin();
    c.AttachListener(t, Terminal, false, true, None);
    Chain(run, c.past);
    OthersStay(c.past, t);
    run' := Then(run, c.past);
  }

  /** All is quiet, a live listener is tracked, and the published server does not serve it. */
  ghost predicate Stranded(s: State) {
    && s.lock.None? && Terminal in s.running && Live(s, Terminal) && !SomePending(s, Terminal)
    && !Serves(s, Terminal, s.tracked[Terminal])
  }

  lemma {:induction false} OneMore(s: State, s': State, t: Tid)
    requires Others(s, s', t) && t in s'.pcs
    ensures s'.pcs.Keys == s.pcs.Keys + {t}
  {
    forall u ensures u in s'.pcs <==> u in s.pcs.Keys + {t} {}
  }

  lemma {:induction false} Quiet(s: State)
    requires forall u :: u in s.pcs ==> s.pcs[u].Done? || s.pcs[u].SupTick? || s.pcs[u].SupCheck?
    ensures !SomePending(s, Terminal)
  {
  }

  /** The service was stopped while the supervisor waited; where the supervisor stands by now. */
  ghost predicate StoppedUnder(s: State, lock: Option<Tid>, phase: Phase) {
    && s.lock == lock && s.running == {} && s.server == map[Terminal := 10] && s.tracked == map[]
    && s.dead == {} && s.bound.Keys <= {100} && s.owner.Keys <= {10} && s.pcs.Keys == {1, 2, 4}
    && s.pcs[1] == Done && s.pcs[2] == Done && s.pcs[4] == Attach(Terminal, phase, true)
  }

  method StopUnderWait() returns (c: Center, ghost run: Past)
    ensures fresh(c) && Led(c, run) && StoppedUnder(c.s, None, Lock)
  {
    c, run := ServiceUp(Terminal);
    ghost var s := c.s;
    run := ToAttach(c, run, Terminal);
    OneMore(s, c.s, 4);
    ghost var s' := c.s;
    run := StopAll(c, run, 2, Terminal);
    OneMore(s', c.s, 2);
    assert c.tracked == map[];
  }

  method StopUnderAttach() returns (c: Center, ghost run: Past)
    ensures fresh(c) && Led(c, run) && StoppedUnder(c.s, Some(4), LoadRunning(Some(10)))
  {
    c, run := StopUnderWait();
    ghost var s := c.s;
    run := LoadOld(c, run);
    OneMore(s, c.s, 4);
  }

  /** A restart has published and flagged its own server meanwhile, and waits for the mutex. */
  ghost predicate RestartWaits(s: State) {
    && s.running == {Terminal} && s.server == map[Terminal := 11] && s.tracked == map[]
    && s.dead == {} && s.bound.Keys <= {100}
    && 10 in s.extras && 11 in s.extras && s.extras[11] == {} && s.pcs.Keys == {1, 2, 3, 4}
    && s.pcs[1] == Done && s.pcs[2] == Done && s.pcs[3] == Attach(Terminal, Lock, false)
    && s.pcs[4] == Attach(Terminal, LoadRunning(Some(10)), true)
  }

  method RestartUnderAttach() returns (c: Center, ghost run: Past)
    ensures fresh(c) && Led(c, run) && RestartWaits(c.s)
  {
    c, run := StopUnderAttach();
    assert c.server[Terminal] in c.extras;
    ghost var s := c.s;
    run := Relaunch(c, run, 3, 11);
    OneMore(s, c.s, 3);
  }

  /**
   The attach loads the server before the running flag: a restart in between strands its listener on the
   stopped server.
   */
  method StaleServer() returns (ghost run: Past)
    ensures RunFromInit(run.states, run.steps) && Stranded(run.states[|run.steps|])
  {
    var c;
    c, run := RestartUnderAttach();
    run := BindOld(c, run, 10, 101);
    run := FinishStart(c, run, 3);
    Quiet(c.s);
  }

  /** Two starts both find the service down: the second publishes over the first, whose listener stays tracked. */
  method OverlappingStarts() returns (ghost run: Past)
    ensures RunFromInit(run.states, run.steps) && Stranded(run.states[|run.steps|])
  {
    var c;
    c, run := OneStartWaits();
    run := LaunchOver(c, run);
    run := FinishStart(c, run, 1);
    Quiet(c.s);
  }

  /** Thread 1 has found the service down; thread 2 has started it since. */
  method OneStartWaits() returns (c: Center, ghost run: Past)
    ensures fresh(c) && Led(c, run) && c.s.lock.None? && c.running == {Terminal} && c.tracked == map[Terminal := 100]
    ensures c.dead == {}
    ensures c.At(1, StartBuild(Terminal)) && c.At(2, Done) && c.s.pcs.Keys == {1, 2} && 11 !in c.s.owner
  {
    c, run := OneStartLoads();
    ghost var s := c.s;
    run := StartUp(c, run, 2, Terminal, 10, 100);
    OneMore(s, c.s, 2);
  }

  method OneStartLoads() returns (c: Center, ghost run: Past)
    ensures fresh(c) && Led(c, run) && c.At(1, StartBuild(Terminal)) && c.s.pcs.Keys == {1} && c.s.lock.None?
    ensures c.running == {} && c.tracked == map[] && c.dead == {} && c.s.owner == map[] && c.s.bound == map[]
  {
    c := new Center();
    run := Past([c.s], []);
    run := Happening(c, run, Spawn(1, StartLoad(Terminal)));
    c.Moves(1, StartLoad(Terminal), true);
    Chain(run, c.past);
    run := Then(run, c.past);
  }

  method LaunchOver(c: Center, ghost run: Past) returns (ghost run': Past)
    requires Led(c, run) && c.At(1, StartBuild(Terminal)) && 11 !in c.s.owner
    modifies c
    ensures Led(c, run') && c.At(1, Attach(Terminal, Lock, false)) && Others(old(c.s), c.s, 1)
    ensures c.running == old(c.running) + {Terminal} && c.server == old(c.server)[Terminal := 11]
    ensures c.extras == old(c.extras)[11 := {}]
    ensures c.tracked == old(c.tracked) && c.s.lock == old(c.s).lock
  {
    c.Begin();
    c.Launch(1, Terminal, 11);
    Chain(run, c.past);
    OthersStay(c.past, 1);
    run' := Then(run, c.past);
  }

  // ---- a port without a server ----

  /** The supervisor, under the mutex, has found VNC live and is about to store the port. */
  method ToSetPort(c: Center, ghost run: Past) returns (ghost run': Past)
    requires Led(c, run) && c.At(4, Attach(Vnc, Lock, true)) && c.s.lock.None? && Vnc in c.running && Vnc in c.server
    requires LiveIn(c.tracked, c.dead, Vnc)
    modifies c`s, c`origin, c`past
    ensures Led(c, run') && c.At(4, Attach(Vnc, SetPort, true)) && Others(old(c.s), c.s, 4)
    ensures c.s == old(c.s).(lock := Some(4), pcs := c.s.pcs)
  {
    c.Begin();
    var srv := c.Enter(4, Vnc, true);
    c.Looks(4, Vnc, true, Health(srv.value), true);
    Chain(run, c.past);
    OthersStay(c.past, 4);
    run' := Then(run, c.past);
  }

  /** The stop clears the port and waits for the mutex. */
  method Clear(c: Center, ghost run: Past) returns (ghost run': Past)
    requires Led(c, run) && c.At(2, StopPort)
    modifies c
    ensures Led(c, run') && c.At(2, StopLock(Vnc)) && Others(old(c.s), c.s, 2)
    ensures c.s == old(c.s).(port := 0, pcs := c.s.pcs)
  {
    c.Begin();
    c.port := 0;
    c.SetsPort(2, StopPort, 0);
    Chain(run, c.past);
    OthersStay(c.past, 2);
    run' := Then(run, c.past);
  }

  /** The supervisor stores the port, leaves the mutex and is done with its tick. */
  method Store(c: Center, ghost run: Past) returns (ghost run': Past)
    requires Led(c, run) && c.At(4, Attach(Vnc, SetPort, true)) && H264 !in c.running
    modifies c
    ensures Led(c, run') && c.At(4, SupTick(true)) && Others(old(c.s), c.s, 4)
    ensures c.s == old(c.s).(lock := None, port := VNC_PORT, pcs := c.s.pcs)
  {
    c.Begin();
    StoreAndLeave(c);
    Chain(run, c.past);
    OthersStay(c.past, 4);
    run' := Then(run, c.past);
  }

  method StoreAndLeave(c: Center)
    requires c.Valid(4) && c.At(4, Attach(Vnc, SetPort, true)) && H264 !in c.running
    modifies c
    ensures c.Valid(4) && c.origin == old(c.origin) && c.At(4, SupTick(true))
    ensures c.s == old(c.s).(lock := None, port := VNC_PORT, pcs := c.s.pcs)
  {
    c.Advertise(4, Vnc, true, 0, true);
    c.Unlocks(4, Attach(Vnc, Unlock, true));
    c.Moves(4, SupCheck(H264), true);
  }

  /** The stop resets and returns. */
  method Return(c: Center, ghost run: Past) returns (ghost run': Past)
    requires Led(c, run) && c.At(2, StopLock(Vnc)) && c.s.lock.None?
    modifies c
    ensures Led(c, run') && c.At(2, Done) && Others(old(c.s), c.s, 2)
    ensures c.s == old(c.s).(closed := c.closed, tracked := c.tracked, pcs := c.s.pcs)
    ensures c.tracked == old(c.tracked) - {Vnc}
  {
    c.Begin();
    c.Reset(2, Vnc);
    Chain(run, c.past);
    OthersStay(c.past, 2);
    run' := Then(run, c.past);
  }

  /** The stop has returned, nothing is left of VNC but the port. */
  ghost predicate PortAlone(s: State) {
    && s.lock.None? && s.running == {} && s.tracked == map[] && s.port == VNC_PORT && s.owner.Keys <= {10}
    && s.pcs.Keys == {1, 2, 4} && s.pcs[1] == Done && s.pcs[2] == Done && s.pcs[4] == SupTick(true)
  }

  /** Up to the port clear: the supervisor holds the mutex at its port store, the stop waits for it. */
  ghost predicate PortRace(s: State) {
    && s.lock == Some(4) && s.running == {} && s.tracked == map[Vnc := 100] && s.port == 0 && s.owner.Keys <= {10}
    && s.pcs.Keys == {1, 2, 4} && s.pcs[1] == Done && s.pcs[2] == StopLock(Vnc)
    && s.pcs[4] == Attach(Vnc, SetPort, true)
  }

  method StoreUnderWay() returns (c: Center, ghost run: Past)
    ensures fresh(c) && Led(c, run) && c.s.lock == Some(4) && c.running == {Vnc} && c.tracked == map[Vnc := 100]
    ensures c.s.owner.Keys <= {10} && c.s.pcs.Keys == {1, 4} && c.At(1, Done) && c.At(4, Attach(Vnc, SetPort, true))
  {
    c, run := AttachWaits();
    ghost var s := c.s;
    run := ToSetPort(c, run);
    OneMore(s, c.s, 4);
  }

  method AttachWaits() returns (c: Center, ghost run: Past)
    ensures fresh(c) && Led(c, run) && c.s.lock.None? && c.running == {Vnc} && Vnc in c.server
    ensures c.tracked == map[Vnc := 100] && c.dead == {} && c.s.owner.Keys <= {10}
    ensures c.s.pcs.Keys == {1, 4} && c.At(1, Done) && c.At(4, Attach(Vnc, Lock, true))
  {
    c, run := ServiceUp(Vnc);
    ghost var s := c.s;
    run := ToAttach(c, run, Vnc);
    OneMore(s, c.s, 4);
  }

  method ClearUnderStore() returns (c: Center, ghost run: Past)
    ensures fresh(c) && Led(c, run) && PortRace(c.s)
  {
    c, run := StoreUnderWay();
    ghost var s := c.s;
    run := StopToPort(c, run, 2);
    OneMore(s, c.s, 2);
    run := Clear(c, run);
  }

  method StoreAfterClear() returns (c: Center, ghost run: Past)
    ensures fresh(c) && Led(c, run) && PortAlone(c.s)
  {
    c, run := ClearUnderStore();
    run := Store(c, run);
    run := Return(c, run);
  }

  /**
   A stop returns and the port stays advertised: the supervisor's attach had passed its health check
   before the clear.
   */
  method PortOutlivesStop() returns (ghost run: Past)
    ensures RunFromInit(run.states, run.steps)
    ensures var s := run.states[|run.steps|];
            && 2 in s.pcs && s.pcs[2] == Done && s.lock.None?
            && Vnc !in s.running && Vnc !in s.tracked && s.port == VNC_PORT
  {
    var c;
    c, run := StoreAfterClear();
  }

  /** A new start gets as far as its flag. */
  method ToFlag(c: Center, ghost run: Past) returns (ghost run': Past)
    requires Led(c, run) && 3 !in c.s.pcs && Vnc !in c.running && 11 !in c.s.owner
    modifies c
    ensures Led(c, run') && c.At(3, StartFlag(Vnc)) && Others(old(c.s), c.s, 3)
    ensures c.running == old(c.running) && c.tracked == old(c.tracked) && c.port == old(c.port)
    ensures c.s.lock == old(c.s).lock
  {
    run' := Happening(c, run, Spawn(3, StartLoad(Vnc)));
    c.Moves(3, StartLoad(Vnc), true);
    c.Publish(3, Vnc, 11);
    Chain(run', c.past);
    OthersStay(c.past, 3);
    run' := Then(run', c.past);
  }

  /**
   With such a port left over, a start that stores its flag after the supervisor's checks: the tick (the
   last seven steps) ends with VNC running, nothing tracked for it and a port advertised.
   */
  method LateFlag() returns (ghost run: Past)
    ensures RunFromInit(run.states, run.steps) && |run.steps| >= 7
    ensures var states, steps := run.states[|run.steps| - 7..], run.steps[|run.steps| - 7..];
            states == LateFlagStates(states[0], 4, 3) && steps == LateFlagSteps(4, 3) && Undisturbed(states, Vnc, 0, 7)
    ensures var s := run.states[|run.steps|];
            4 in s.pcs && s.pcs[4] == SupTick(true) && s.lock.None? &&
            Vnc in s.running && !Live(s, Vnc) && s.port == VNC_PORT
  {
    var c;
    c, run := StoreAfterClear();
    run := ToFlag(c, run);
    NoStops(c.s);
    LateFlagBreaks(c.s, 4, 3);
    ghost var late := Past(LateFlagStates(c.s, 4, 3), LateFlagSteps(4, 3));
    Chain(run, late);
    ghost var whole := Then(run, late);
    assert whole.states[|run.steps|..] == late.states && whole.steps[|run.steps|..] == late.steps;
    run := whole;
  }

  lemma {:induction false} NoStops(s: State)
    requires forall u :: u in s.pcs ==> s.pcs[u].Done? || s.pcs[u].SupTick? || s.pcs[u].StartFlag?
    ensures !SomePending(s, Vnc)
  {
  }
}
