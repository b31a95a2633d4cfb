/**
 The control center's start, stop, attach and supervise as code: methods that update the package-level
 state in place.

 Beside the fields runs the thread machine of `VpnListeners`. Every statement another thread could
 observe is followed by the step it stands for, and `Valid(t)` says that the machine got where it is
 from `origin` by enabled steps of thread `t` alone, with the fields in the same state. So each method is
 one thread of the machine at work, and what holds of all its interleavings holds of this code.
 */
module ControlCenter {
  import opened Prelude
  import opened VpnListeners
  import opened VpnInvariant
  import opened VpnTheorems

  class Center {
    var running: set<Svc>
    var server: map<Svc, Srv>
    var tracked: map<Svc, Lid>
    var port: int
    var extras: map<Srv, set<Lid>>
    var closed: set<Lid>
    var dead: set<Lid>

    /** The thread machine in the same state, and the run that took it from `origin` there. */
    ghost var s: State
    ghost var origin: State
    ghost var past: Past

    ghost predicate Same()
      reads this
    {
      && running == s.running && server == s.server && tracked == s.tracked && port == s.port
      && extras == s.extras && closed == s.closed && dead == s.dead
      && running <= server.Keys && dead <= s.bound.Keys
      && forall svc :: svc in server ==> server[svc] in extras
    }

    /** The fields agree with the machine, which thread `t` alone has moved since `origin`. */
    ghost predicate Valid(t: Tid)
      reads this
    {
      Same() && Segment(past, origin, s, t)
    }

    /** Nothing has moved since `origin`. */
    ghost predicate Fresh()
      reads this
    {
      Same() && past == Past([s], []) && origin == s
    }

    ghost predicate At(t: Tid, pc: Pc)
      reads this
    {
      t in s.pcs && s.pcs[t] == pc
    }

    constructor ()
      ensures Fresh() && Init(s)
    {
      running, server, tracked, port, extras, closed, dead := {}, map[], map[], 0, map[], {}, {};
      var init := State(map[], None, map[], map[], map[], {}, map[], 0, map[], {}, {}, {}, {});
      s, origin, past := init, init, Past([init], []);
    }

    /** From here on another thread may be watched. */
    ghost method Begin()
      requires Same()
      modifies this`origin, this`past
      ensures Fresh()
    {
      origin, past := s, Past([s], []);
    }

    /** The machine makes the step of `t` that the code has just made. */
    ghost method Go(t: Tid, ok: bool, id: nat)
      requires Segment(past, origin, s, t) && Enabled(s, Run(t, ok, id))
      modifies this`s, this`past
      ensures Segment(past, origin, s, t) && s == Do(old(s), Run(t, ok, id))
    {
      Lengthen(past.states, past.steps, Run(t, ok, id));
      s := Do(s, Run(t, ok, id));
      past := Past(past.states + [s], past.steps + [Run(t, ok, id)]);
    }

    // ---- the steps by what they do to the shared state ----

    /** A load, a test, or an external call without effect. */
    ghost method Moves(t: Tid, pc: Pc, ok: bool)
      requires Segment(past, origin, s, t) && At(t, pc) && Silent(pc, ok)
      modifies this`s, this`past
      ensures Segment(past, origin, s, t)
      ensures s == old(s).(pcs := old(s).pcs[t := Next(old(s), pc, ok, 0)])
    {
      Go(t, ok, 0);
    }

    /** The same within an attach. */
    ghost method Looks(t: Tid, svc: Svc, sup: bool, phase: Phase, ok: bool)
      requires Segment(past, origin, s, t) && At(t, Attach(svc, phase, sup)) && Silent(Attach(svc, phase, sup), ok)
      modifies this`s, this`past
      ensures Segment(past, origin, s, t)
      ensures s == old(s).(pcs := old(s).pcs[t := Attach(svc, NextPhase(old(s), svc, phase, ok, 0), sup)])
    {
      Go(t, ok, 0);
    }

    ghost method Locks(t: Tid, pc: Pc)
      requires Segment(past, origin, s, t) && At(t, pc) && WantsLock(pc) && s.lock.None?
      modifies this`s, this`past
      ensures Segment(past, origin, s, t)
      ensures s == old(s).(lock := Some(t),
                           pcs := old(s).pcs[t := Next(old(s), pc, true, 0)])
    {
      Go(t, true, 0);
    }

    ghost method Unlocks(t: Tid, pc: Pc)
      requires Segment(past, origin, s, t) && At(t, pc)
      requires pc.StopUnlock? || pc.SupUnlock? || (pc.Attach? && pc.phase.Unlock?)
      modifies this`s, this`past
      ensures Segment(past, origin, s, t)
      ensures s == old(s).(lock := None,
                           pcs := old(s).pcs[t := Next(old(s), pc, true, 0)])
    {
      Go(t, true, 0);
    }

    ghost method SetsPort(t: Tid, pc: Pc, to: int)
      requires Segment(past, origin, s, t) && At(t, pc)
      requires pc.StopPort? || (pc.Attach? && (pc.phase.ClearPort? || pc.phase.BindFailed? || pc.phase.SetPort?))
      requires to == if pc.Attach? && pc.phase.SetPort? then VNC_PORT else 0
      modifies this`s, this`past
      ensures Segment(past, origin, s, t)
      ensures s == old(s).(port := to,
                           pcs := old(s).pcs[t := Next(old(s), pc, true, 0)])
    {
      Go(t, true, 0);
    }

    ghost method ClosesOld(t: Tid, svc: Svc, sup: bool, srv: Srv)
      requires Segment(past, origin, s, t) && At(t, Attach(svc, CloseOld(srv), sup)) && svc in s.tracked
      modifies this`s, this`past
      ensures Segment(past, origin, s, t)
      ensures s == old(s).(closed := old(s).closed + {old(s).tracked[svc]},
                           pcs := old(s).pcs[t := Attach(svc, RemoveOld(srv), sup)])
    {
      Go(t, true, 0);
    }

    ghost method RemovesOld(t: Tid, svc: Svc, sup: bool, srv: Srv)
      requires Segment(past, origin, s, t) && At(t, Attach(svc, RemoveOld(srv), sup))
      requires svc in s.tracked && srv in s.extras
      modifies this`s, this`past
      ensures Segment(past, origin, s, t)
      ensures s == old(s).(extras := old(s).extras[srv := old(s).extras[srv] - {old(s).tracked[svc]}],
                           pcs := old(s).pcs[t := Attach(svc, Untrack(srv), sup)])
    {
      Go(t, true, 0);
    }

    ghost method Untracks(t: Tid, svc: Svc, sup: bool, srv: Srv)
      requires Segment(past, origin, s, t) && At(t, Attach(svc, Untrack(srv), sup)) && svc in s.tracked
      modifies this`s, this`past
      ensures Segment(past, origin, s, t)
      ensures s == old(s).(tracked := old(s).tracked - {svc},
                           pcs := old(s).pcs[t := Attach(svc, Bind(srv, Some(old(s).tracked[svc])), sup)])
    {
      Go(t, true, 0);
    }

    ghost method Binds(t: Tid, svc: Svc, sup: bool, srv: Srv, replaced: Option<Lid>, l: Lid)
      requires Segment(past, origin, s, t) && At(t, Attach(svc, Bind(srv, replaced), sup)) && l !in s.bound
      modifies this`s, this`past
      ensures Segment(past, origin, s, t)
      ensures s == old(s).(bound := old(s).bound[l := svc],
                           pcs := old(s).pcs[t := Attach(svc, Add(srv, l), sup)])
    {
      Go(t, true, l);
    }

    ghost method Adds(t: Tid, svc: Svc, sup: bool, srv: Srv, l: Lid)
      requires Segment(past, origin, s, t) && At(t, Attach(svc, Add(srv, l), sup)) && srv in s.extras
      modifies this`s, this`past
      ensures Segment(past, origin, s, t)
      ensures s == old(s).(extras := old(s).extras[srv := old(s).extras[srv] + {l}],
                           pcs := old(s).pcs[t := Attach(svc, Track(l), sup)])
    {
      Go(t, true, 0);
    }

    ghost method Tracks(t: Tid, svc: Svc, sup: bool, l: Lid)
      requires Segment(past, origin, s, t) && At(t, Attach(svc, Track(l), sup))
      modifies this`s, this`past
      ensures Segment(past, origin, s, t)
      ensures s == old(s).(tracked := old(s).tracked[svc := l],
                           pcs := old(s).pcs[t := Attach(svc, if svc == Vnc then SetPort else Unlock, sup)])
    {
      Go(t, true, 0);
    }

    ghost method Builds(t: Tid, svc: Svc, srv: Srv)
      requires Segment(past, origin, s, t) && At(t, StartBuild(svc)) && srv !in s.owner
      modifies this`s, this`past
      ensures Segment(past, origin, s, t)
      ensures s == old(s).(owner := old(s).owner[srv := svc], extras := old(s).extras[srv := {}],
                           pcs := old(s).pcs[t := StartPublish(svc, srv)])
    {
      Go(t, true, srv);
    }

    ghost method Publishes(t: Tid, svc: Svc, srv: Srv)
      requires Segment(past, origin, s, t) && At(t, StartPublish(svc, srv))
      modifies this`s, this`past
      ensures Segment(past, origin, s, t)
      ensures s == old(s).(server := old(s).server[svc := srv],
                           pcs := old(s).pcs[t := StartFlag(svc)])
    {
      Go(t, true, 0);
    }

    ghost method Flags(t: Tid, svc: Svc)
      requires Segment(past, origin, s, t) && At(t, StartFlag(svc))
      modifies this`s, this`past
      ensures Segment(past, origin, s, t)
      ensures s == old(s).(running := old(s).running + {svc},
                           pcs := old(s).pcs[t := Attach(svc, Lock, false)])
    {
      Go(t, true, 0);
    }

    ghost method ClosesOne(t: Tid, svc: Svc, srv: Srv, l: Lid)
      requires Segment(past, origin, s, t) && At(t, StopClosing(svc, srv))
      requires srv in s.extras && l in s.extras[srv]
      modifies this`s, this`past
      ensures Segment(past, origin, s, t)
      ensures s == old(s).(closed := old(s).closed + {l},
                           pcs := old(s).pcs[t := StopClosing(svc, srv)])
    {
      Go(t, true, l);
    }

    ghost method Unflags(t: Tid, svc: Svc)
      requires Segment(past, origin, s, t) && At(t, StopFlag(svc))
      modifies this`s, this`past
      ensures Segment(past, origin, s, t)
      ensures s == old(s).(running := old(s).running - {svc},
                           pcs := old(s).pcs[t := if svc == Vnc then StopPort else StopLock(svc)])
    {
      Go(t, true, 0);
    }

    ghost method Resets(t: Tid, svc: Svc)
      requires Segment(past, origin, s, t) && At(t, StopReset(svc))
      modifies this`s, this`past
      ensures Segment(past, origin, s, t)
      ensures s == old(s).(closed := old(s).closed + (if svc in old(s).tracked then {old(s).tracked[svc]} else {}),
                           tracked := old(s).tracked - {svc},
                           pcs := old(s).pcs[t := StopUnlock(svc)])
    {
      Go(t, true, 0);
    }

    // ---- the attach helper ----

    /** The lock is held, the server is up; ready to bind. */
    ghost predicate Binding(t: Tid, svc: Svc, sup: bool, srv: Srv)
      reads this
    {
      t in s.pcs && s.pcs[t].Attach? && s.pcs[t].phase.Bind? &&
      s.pcs[t] == Attach(svc, Bind(srv, s.pcs[t].phase.replaced), sup)
    }

    /** A dead listener is closed and removed before its successor is bound. */
    method GiveUp(t: Tid, svc: Svc, sup: bool, srv: Srv)
      requires Valid(t) && At(t, Attach(svc, CloseOld(srv), sup)) && svc in tracked && srv in extras
      modifies this
      ensures Valid(t) && origin == old(origin) && Binding(t, svc, sup, srv) && srv in extras
      ensures s == old(s).(closed := closed, extras := extras, tracked := tracked, pcs := s.pcs)
      ensures tracked == old(tracked) - {svc}
      ensures closed == old(closed) + {old(tracked)[svc]}
      ensures extras == old(extras)[srv := old(extras)[srv] - {old(tracked)[svc]}]
    {
      closed := closed + {tracked[svc]};
      ClosesOld(t, svc, sup, srv);
      extras := extras[srv := extras[srv] - {tracked[svc]}];
      RemovesOld(t, svc, sup, srv);
      tracked := tracked - {svc};
      Untracks(t, svc, sup, srv);
    }

    /** A bound listener goes to the server and becomes the tracked one. */
    method Adopt(t: Tid, svc: Svc, sup: bool, srv: Srv, l: Lid)
      requires Valid(t) && At(t, Attach(svc, Add(srv, l), sup)) && srv in extras
      modifies this
      ensures Valid(t) && origin == old(origin) && At(t, Attach(svc, if svc == Vnc then SetPort else Unlock, sup))
      ensures s == old(s).(extras := extras, tracked := tracked, pcs := s.pcs) && tracked == old(tracked)[svc := l]
      ensures extras == old(extras)[srv := old(extras)[srv] + {l}]
    {
      extras := extras[srv := extras[srv] + {l}];
      Adds(t, svc, sup, srv, l);
      tracked := tracked[svc := l];
      Tracks(t, svc, sup, l);
    }

    /** A failed bind leaves the service without a listener, and VNC without a port. */
    method BindNothing(t: Tid, svc: Svc, sup: bool, srv: Srv)
      requires Valid(t) && Binding(t, svc, sup, srv)
      modifies this
      ensures Valid(t) && origin == old(origin) && At(t, Attach(svc, Unlock, sup))
      ensures s == old(s).(port := port, pcs := s.pcs) && port == if svc == Vnc then 0 else old(port)
    {
      Looks(t, svc, sup, Bind(srv, s.pcs[t].phase.replaced), false);
      if svc == Vnc {
        port := 0;
        SetsPort(t, Attach(Vnc, BindFailed, sup), 0);
      }
    }

    /** A bound listener goes to the server, becomes the tracked one, and for VNC the port is advertised. */
    method BindFresh(t: Tid, svc: Svc, sup: bool, srv: Srv, l: Lid)
      requires Valid(t) && Binding(t, svc, sup, srv) && srv in extras && l !in s.bound
      modifies this
      ensures Valid(t) && origin == old(origin) && At(t, Attach(svc, Unlock, sup))
      ensures s == old(s).(bound := s.bound, extras := extras, tracked := tracked, port := port, pcs := s.pcs)
      ensures tracked == old(tracked)[svc := l] && s.bound == old(s.bound)[l := svc]
      ensures extras == old(extras)[srv := old(extras)[srv] + {l}]
      ensures port == if svc == Vnc then VNC_PORT else old(port)
    {
      Binds(t, svc, sup, srv, s.pcs[t].phase.replaced, l);
      Adopt(t, svc, sup, srv, l);
      Advertise(t, svc, sup, srv, true);
    }

    /** No live listener: the heartbeat must not advertise the port while there is none. */
    method Replace(t: Tid, svc: Svc, sup: bool, srv: Srv, up: bool, bound: Option<Lid>)
      requires Valid(t) && At(t, Attach(svc, Connected(srv), sup)) && srv in extras
      requires bound.Some? ==> bound.value !in s.bound
      modifies this
      ensures Valid(t) && origin == old(origin) && At(t, Attach(svc, Unlock, sup))
      ensures s == old(s).(bound := s.bound, extras := extras, tracked := tracked,
                           port := port, closed := closed, pcs := s.pcs)
      ensures tracked == if !up then old(tracked)
                         else if bound.Some? then old(tracked)[svc := bound.value] else old(tracked) - {svc}
      ensures port == if !up || svc != Vnc then old(port) else if bound.Some? then VNC_PORT else 0
      ensures closed == old(closed) + if up && svc in old(tracked) then {old(tracked)[svc]} else {}
      ensures s.bound == if up && bound.Some? then old(s.bound)[bound.value := svc] else old(s.bound)
      ensures forall x :: x in old(extras) && x != srv ==> x in extras && extras[x] == old(extras)[x]
    {
      MakeWay(t, svc, sup, srv, up);
      if !up { return; }
      if bound.Some? { BindFresh(t, svc, sup, srv, bound.value); } else { BindNothing(t, svc, sup, srv); }
    }

    /** With the network up, whatever is tracked is given up; then nothing stands in the way of the bind. */
    method MakeWay(t: Tid, svc: Svc, sup: bool, srv: Srv, up: bool)
      requires Valid(t) && At(t, Attach(svc, Connected(srv), sup)) && srv in extras
      modifies this
      ensures Valid(t) && origin == old(origin) && srv in extras
      ensures if up then Binding(t, svc, sup, srv) else At(t, Attach(svc, Unlock, sup))
      ensures s == old(s).(extras := extras, tracked := tracked, closed := closed, pcs := s.pcs)
      ensures tracked == if up then old(tracked) - {svc} else old(tracked)
      ensures closed == old(closed) + if up && svc in old(tracked) then {old(tracked)[svc]} else {}
      ensures forall x :: x in old(extras) && x != srv ==> x in extras && extras[x] == old(extras)[x]
    {
      Looks(t, svc, sup, Connected(srv), up);
      if up && svc in tracked { GiveUp(t, svc, sup, srv); }
    }

    /** The heartbeat follows what the health check found. */
    method Advertise(t: Tid, svc: Svc, sup: bool, srv: Srv, live: bool)
      requires Valid(t) && At(t, Attach(svc, AfterHealth(svc, srv, live), sup))
      modifies this
      ensures Valid(t) && origin == old(origin) && At(t, Attach(svc, if live then Unlock else Connected(srv), sup))
      ensures s == old(s).(port := port, pcs := s.pcs)
      ensures port == if svc != Vnc then old(port) else if live then VNC_PORT else 0
    {
      if svc == Vnc {
        port := if live then VNC_PORT else 0;
        SetsPort(t, Attach(svc, AfterHealth(svc, srv, live), sup), port);
      }
    }

    method Refresh(t: Tid, svc: Svc, sup: bool, srv: Srv, up: bool, bound: Option<Lid>)
      requires Valid(t) && At(t, Attach(svc, Health(srv), sup)) && srv in extras
      requires bound.Some? ==> bound.value !in s.bound
      modifies this
      ensures Valid(t) && origin == old(origin) && At(t, Attach(svc, Unlock, sup))
      ensures s == old(s).(bound := s.bound, extras := extras, tracked := tracked,
                           port := port, closed := closed, pcs := s.pcs)
      ensures tracked == TrackedAfter(old(tracked), old(dead), svc, up, bound)
      ensures port == PortAfter(old(tracked), old(dead), old(port), svc, up, bound)
      ensures closed == ClosedAfter(old(tracked), old(dead), old(closed), svc, up)
      ensures s.bound.Keys <= old(s.bound).Keys + New(bound)
      ensures forall x :: x in old(extras) && x != srv ==> x in extras && extras[x] == old(extras)[x]
      ensures LiveIn(old(tracked), old(dead), svc) ==> extras == old(extras)
    {
      var live := svc in tracked && tracked[svc] !in dead;
      Looks(t, svc, sup, Health(srv), true);
      Advertise(t, svc, sup, srv, live);
      if !live { Replace(t, svc, sup, srv, up, bound); }
    }

    /** Take the lock and load the server pointer and the running flag. */
    method Enter(t: Tid, svc: Svc, sup: bool) returns (srv: Option<Srv>)
      requires Valid(t) && At(t, Attach(svc, Lock, sup)) && s.lock.None?
      modifies this`s, this`past
      ensures Valid(t) && origin == old(origin) && s == old(s).(lock := Some(t), pcs := s.pcs)
      ensures At(t, Attach(svc, if srv.Some? then Health(srv.value) else Unlock, sup))
      ensures srv == if svc in running && svc in server then Some(server[svc]) else None
    {
      Locks(t, Attach(svc, Lock, sup));
      srv := if svc in server then Some(server[svc]) else None;
      Looks(t, svc, sup, LoadServer, true);
      Looks(t, svc, sup, LoadRunning(srv), true);
      if svc !in running { srv := None; }
    }

    /** The attach helper: nothing to do over a live listener, a new one in place of a dead or missing one. */
    method AttachListener(t: Tid, svc: Svc, sup: bool, up: bool, bound: Option<Lid>)
      requires Valid(t) && At(t, Attach(svc, Lock, sup)) && s.lock.None?
      requires bound.Some? ==> bound.value !in s.bound
      modifies this
      ensures Valid(t) && origin == old(origin) && At(t, if sup then AfterCheck(svc) else Done)
      ensures s.lock.None? && running == old(running) && server == old(server) && dead == old(dead)
      ensures svc !in running ==> tracked == old(tracked) && port == old(port) && closed == old(closed)
      ensures svc in running ==> tracked == TrackedAfter(old(tracked), old(dead), svc, up, bound)
      ensures svc in running ==> port == PortAfter(old(tracked), old(dead), old(port), svc, up, bound)
      ensures svc in running ==> closed == ClosedAfter(old(tracked), old(dead), old(closed), svc, up)
      ensures s.bound.Keys <= old(s.bound).Keys + New(bound)
      ensures s.owner == old(s).owner
      ensures svc in running && LiveIn(old(tracked), old(dead), svc) ==> extras == old(extras)
    {
      var srv := Enter(t, svc, sup);
      if srv.None? {
        Unlocks(t, Attach(svc, Unlock, sup));
        return;
      }
      RefreshAndRelease(t, svc, sup, srv.value, up, bound);
    }

    method RefreshAndRelease(t: Tid, svc: Svc, sup: bool, srv: Srv, up: bool, bound: Option<Lid>)
      requires Valid(t) && At(t, Attach(svc, Health(srv), sup)) && srv in extras
      requires bound.Some? ==> bound.value !in s.bound
      modifies this
      ensures Valid(t) && origin == old(origin) && At(t, if sup then AfterCheck(svc) else Done) && s.lock.None?
      ensures running == old(running) && server == old(server) && dead == old(dead)
      ensures tracked == TrackedAfter(old(tracked), old(dead), svc, up, bound)
      ensures port == PortAfter(old(tracked), old(dead), old(port), svc, up, bound)
      ensures s.bound.Keys <= old(s.bound).Keys + New(bound)
      ensures closed == ClosedAfter(old(tracked), old(dead), old(closed), svc, up)
      ensures s.owner == old(s).owner
      ensures LiveIn(old(tracked), old(dead), svc) ==> extras == old(extras)
    {
      Refresh(t, svc, sup, srv, up, bound);
      Unlocks(t, Attach(svc, Unlock, sup));
    }

    // ---- start ----

    /**
     Start a service that is not running: the server is complete before it is published, and published
     before it is flagged.
     */
    method Start(t: Tid, svc: Svc, built: Option<Srv>, up: bool, bound: Option<Lid>) returns (ok: bool)
      requires Valid(t) && At(t, StartLoad(svc)) && s.lock.None?
      requires (built.Some? ==> built.value !in s.owner) && (bound.Some? ==> bound.value !in s.bound)
      modifies this
      ensures Valid(t) && origin == old(origin) && At(t, Done) && s.lock.None?
      ensures ok <==> svc in old(running) || built.Some?
      ensures running == if ok then old(running) + {svc} else old(running)
      ensures svc !in old(running) && ok ==> server == old(server)[svc := built.value]
      ensures svc in old(running) || built.None? ==> s == old(s).(pcs := s.pcs)
      ensures svc !in old(running) && ok ==> tracked == TrackedAfter(old(tracked), old(dead), svc, up, bound)
      ensures svc !in old(running) && ok ==> port == PortAfter(old(tracked), old(dead), old(port), svc, up, bound)
      ensures svc !in old(running) && ok ==> closed == ClosedAfter(old(tracked), old(dead), old(closed), svc, up)
      ensures s.owner.Keys <= old(s.owner).Keys + New(built) && s.bound.Keys <= old(s.bound).Keys + New(bound)
    {
      Moves(t, StartLoad(svc), true);
      if svc in running { return true; }
      if built.None? {
        Moves(t, StartBuild(svc), false);
        return false;
      }
      Launch(t, svc, built.value);
      AttachListener(t, svc, false, up, bound);
      return true;
    }

    /** The server is built and published, and only then flagged as running. */
    method Launch(t: Tid, svc: Svc, srv: Srv)
      requires Valid(t) && At(t, StartBuild(svc)) && srv !in s.owner
      modifies this
      ensures Valid(t) && origin == old(origin) && At(t, Attach(svc, Lock, false))
      ensures s == old(s).(owner := s.owner, extras := extras, server := server, running := running, pcs := s.pcs)
      ensures running == old(running) + {svc} && server == old(server)[svc := srv] && extras == old(extras)[srv := {}]
      ensures s.owner == old(s.owner)[srv := svc]
    {
      Publish(t, svc, srv);
      running := running + {svc};
      Flags(t, svc);
    }

    method Publish(t: Tid, svc: Svc, srv: Srv)
      requires Valid(t) && At(t, StartBuild(svc)) && srv !in s.owner
      modifies this
      ensures Valid(t) && origin == old(origin) && At(t, StartFlag(svc))
      ensures s == old(s).(owner := s.owner, extras := extras, server := server, pcs := s.pcs)
      ensures server == old(server)[svc := srv] && extras == old(extras)[srv := {}]
      ensures s.owner == old(s.owner)[srv := svc]
    {
      extras := extras[srv := {}];
      Builds(t, svc, srv);
      server := server[svc := srv];
      Publishes(t, svc, srv);
    }

    // ---- stop ----

    /** The server's own Stop: its listeners are closed one after another. */
    method CloseAll(t: Tid, svc: Svc, srv: Srv)
      requires Valid(t) && At(t, StopClosing(svc, srv)) && srv in extras
      modifies this
      ensures Valid(t) && origin == old(origin) && At(t, StopFlag(svc)) && closed == old(closed) + old(extras)[srv]
      ensures s == old(s).(closed := closed, pcs := s.pcs)
    {
      var todo := extras[srv];
      while todo != {}
        invariant Valid(t) && origin == old(origin) && At(t, StopClosing(svc, srv)) && extras == old(extras)
        invariant todo <= extras[srv]
        invariant s == old(s).(closed := closed, pcs := s.pcs) && closed == old(closed) + (old(extras)[srv] - todo)
      {
        var l :| l in todo;
        closed := closed + {l};
        ClosesOne(t, svc, srv, l);
        todo := todo - {l};
      }
      Moves(t, StopClosing(svc, srv), false);
    }

    /** Once it returns, the service is down and tracks nothing, and every listener its server had is closed. */
    method Stop(t: Tid, svc: Svc)
      requires Valid(t) && At(t, StopLoad(svc)) && s.lock.None?
      modifies this
      ensures Valid(t) && origin == old(origin) && At(t, Done) && s.lock.None? && running == old(running) - {svc}
      ensures svc !in old(running) ==> s == old(s).(pcs := s.pcs)
      ensures svc in old(running) ==> tracked == old(tracked) - {svc} && old(extras)[old(server)[svc]] <= closed
      ensures svc in old(running) && svc in old(tracked) ==> old(tracked)[svc] in closed
      ensures svc == Vnc && svc in old(running) ==> port == 0
      ensures s == old(s).(running := running, closed := closed, tracked := tracked, port := port, pcs := s.pcs)
    {
      Moves(t, StopLoad(svc), true);
      if svc in running {
        Down(t, svc);
        Reset(t, svc);
      }
    }

    /** The unlocked part of a stop: server, flag, advertised port. */
    method Down(t: Tid, svc: Svc)
      requires Valid(t) && At(t, StopServer(svc)) && svc in running
      modifies this
      ensures Valid(t) && origin == old(origin) && At(t, StopLock(svc))
      ensures s == old(s).(closed := closed, running := running, port := port, pcs := s.pcs)
      ensures running == old(running) - {svc} && port == (if svc == Vnc then 0 else old(port))
      ensures closed == old(closed) + old(extras)[old(server)[svc]]
    {
      StopServing(t, svc);
      if svc == Vnc {
        port := 0;
        SetsPort(t, StopPort, 0);
      }
    }

    /** The server closes its listeners; then the flag goes. */
    method StopServing(t: Tid, svc: Svc)
      requires Valid(t) && At(t, StopServer(svc)) && svc in running
      modifies this
      ensures Valid(t) && origin == old(origin) && At(t, if svc == Vnc then StopPort else StopLock(svc))
      ensures s == old(s).(closed := closed, running := running, pcs := s.pcs)
      ensures running == old(running) - {svc} && closed == old(closed) + old(extras)[old(server)[svc]]
    {
      Moves(t, StopServer(svc), true);
      CloseAll(t, svc, server[svc]);
      running := running - {svc};
      Unflags(t, svc);
    }

    /** The locked tail of a stop. */
    method Reset(t: Tid, svc: Svc)
      requires Valid(t) && At(t, StopLock(svc)) && s.lock.None?
      modifies this
      ensures Valid(t) && origin == old(origin) && At(t, Done)
      ensures s == old(s).(closed := closed, tracked := tracked, pcs := s.pcs)
      ensures tracked == old(tracked) - {svc}
      ensures closed == old(closed) + if svc in old(tracked) then {old(tracked)[svc]} else {}
    {
      Locks(t, StopLock(svc));
      Forget(t, svc);
    }

    method Forget(t: Tid, svc: Svc)
      requires Valid(t) && At(t, StopReset(svc))
      modifies this
      ensures Valid(t) && origin == old(origin) && At(t, Done)
      ensures s == old(s).(lock := None, closed := closed, tracked := tracked, pcs := s.pcs)
      ensures tracked == old(tracked) - {svc}
      ensures closed == old(closed) + if svc in old(tracked) then {old(tracked)[svc]} else {}
    {
      if svc in tracked { closed := closed + {tracked[svc]}; }
      tracked := tracked - {svc};
      Resets(t, svc);
      Unlocks(t, StopUnlock(svc));
    }

    // ---- the supervisor ----

    /** The service is not running, or its listener is fine. */
    predicate Fine(svc: Svc)
      reads this
    {
      svc in running ==> LiveIn(tracked, dead, svc)
    }

    /** vpnListenersHealthy. */
    method Healthy(t: Tid) returns (healthy: bool)
      requires Valid(t) && At(t, SupLock) && s.lock.None?
      modifies this`s, this`past
      ensures Valid(t) && s.lock.None? && s.bound == old(s).bound
      ensures healthy <==> Fine(Terminal) && Fine(Vnc) && Fine(H264)
      ensures At(t, if healthy then SupTick(true) else SupCheck(Terminal))
    {
      Locks(t, SupLock);
      healthy := HealthOf(t, Terminal);
      if healthy { healthy := HealthOf(t, Vnc); }
      if healthy { healthy := HealthOf(t, H264); }
    }

    /** One check under the lock; the first failing one and the last one release it. */
    method HealthOf(t: Tid, svc: Svc) returns (fine: bool)
      requires Valid(t) && At(t, SupHealth(svc))
      modifies this`s, this`past
      ensures Valid(t) && fine == Fine(svc) && s.bound == old(s).bound
      ensures fine && svc != H264 ==> At(t, AfterHealthy(svc))
      ensures fine && svc == H264 ==> At(t, SupTick(true)) && s.lock.None?
      ensures !fine ==> At(t, SupCheck(Terminal)) && s.lock.None?
    {
      Moves(t, SupHealth(svc), true);
      fine := Fine(svc);
      if !fine || svc == H264 { Conclude(t, fine); }
    }

    method Conclude(t: Tid, healthy: bool)
      requires Valid(t) && At(t, SupUnlock(healthy))
      modifies this`s, this`past
      ensures Valid(t) && s == old(s).(lock := None, pcs := s.pcs)
      ensures At(t, if healthy then SupTick(true) else SupCheck(Terminal))
    {
      Unlocks(t, SupUnlock(healthy));
    }

    method CheckOne(t: Tid, svc: Svc, up: bool, bound: Option<Lid>)
      requires Valid(t) && At(t, SupCheck(svc)) && s.lock.None? && (bound.Some? ==> bound.value !in s.bound)
      modifies this
      ensures Valid(t) && origin == old(origin) && At(t, AfterCheck(svc)) && s.lock.None? && running == old(running)
      ensures dead == old(dead)
      ensures tracked == Checked(old(running), old(tracked), old(dead), svc, up, bound)
      ensures port == if svc in running then PortAfter(old(tracked), old(dead), old(port), svc, up, bound)
                      else old(port)
      ensures s.bound.Keys <= old(s.bound).Keys + New(bound)
    {
      Moves(t, SupCheck(svc), true);
      if svc in running { AttachListener(t, svc, true, up, bound); }
    }

    /**
     One tick of the supervisor with nobody in between. The network polled as connected and every bind
     succeeding, each running service ends with a live listener.
     */
    method Tick(t: Tid, was: bool, connected: bool, up: bool, a: Option<Lid>, b: Option<Lid>,
                c: Option<Lid>) returns (now: bool)
      requires Valid(t) && At(t, SupTick(was)) && s.lock.None?
      requires New(a) !! New(b) && New(a) + New(b) !! New(c) && New(a) + New(b) + New(c) !! s.bound.Keys
      modifies this
      ensures Valid(t) && origin == old(origin) && now == connected && At(t, SupTick(now)) && s.lock.None?
      ensures running == old(running)
      ensures !connected ==> s == old(s).(pcs := s.pcs)
      ensures connected && up && a.Some? && b.Some? && c.Some? ==> Fine(Terminal) && Fine(Vnc) && Fine(H264)
      ensures was && old(Fine(Terminal) && Fine(Vnc) && Fine(H264)) ==>
                tracked == old(tracked) && port == old(port) && closed == old(closed)
    {
      Moves(t, SupTick(was), connected);
      if connected { React(t, was, up, a, b, c); }
      return connected;
    }

    /** A connected poll: re-attach on the transition into connected, or when a listener is not healthy. */
    method React(t: Tid, was: bool, up: bool, a: Option<Lid>, b: Option<Lid>, c: Option<Lid>)
      requires Valid(t) && At(t, if was then SupLock else SupCheck(Terminal)) && s.lock.None?
      requires New(a) !! New(b) && New(a) + New(b) !! New(c) && New(a) + New(b) + New(c) !! s.bound.Keys
      modifies this
      ensures Valid(t) && origin == old(origin) && At(t, SupTick(true)) && s.lock.None? && running == old(running)
      ensures up && a.Some? && b.Some? && c.Some? ==> Fine(Terminal) && Fine(Vnc) && Fine(H264)
      ensures was && old(Fine(Terminal) && Fine(Vnc) && Fine(H264)) ==>
                tracked == old(tracked) && port == old(port) && closed == old(closed)
    {
      if was {
        var healthy := Healthy(t);
        if healthy { return; }
      }
      CheckAll(t, up, a, b, c);
    }

    method CheckAll(t: Tid, up: bool, a: Option<Lid>, b: Option<Lid>, c: Option<Lid>)
      requires Valid(t) && At(t, SupCheck(Terminal)) && s.lock.None?
      requires New(a) !! New(b) && New(a) + New(b) !! New(c) && New(a) + New(b) + New(c) !! s.bound.Keys
      modifies this
      ensures Valid(t) && origin == old(origin) && At(t, SupTick(true)) && s.lock.None? && running == old(running)
      ensures tracked == CheckedAll(old(running), old(tracked), old(dead), up, a, b, c) && dead == old(dead)
      ensures up && a.Some? && b.Some? && c.Some? ==> Fine(Terminal) && Fine(Vnc) && Fine(H264)
    {
      if up && a.Some? && b.Some? && c.Some? { AllHealed(running, tracked, dead, a, b, c); }
      CheckOne(t, Terminal, up, a);
      CheckRest(t, up, b, c);
    }

    method CheckRest(t: Tid, up: bool, b: Option<Lid>, c: Option<Lid>)
      requires Valid(t) && At(t, SupCheck(Vnc)) && s.lock.None? && New(b) !! New(c) && New(b) + New(c) !! s.bound.Keys
      modifies this
      ensures Valid(t) && origin == old(origin) && At(t, SupTick(true)) && s.lock.None? && running == old(running)
      ensures dead == old(dead)
      ensures var t2 := Checked(old(running), old(tracked), old(dead), Vnc, up, b);
              tracked == Checked(old(running), t2, old(dead), H264, up, c)
    {
      CheckOne(t, Vnc, up, b);
      CheckOne(t, H264, up, c);
    }

    // ---- what happens around the threads ----

    /** A step of the environment: a thread is spawned, tsnet tears a binding down, or an accept loop takes notice. */
    ghost method Happens(st: Step)
      requires Same() && Enabled(s, st) && (st.Spawn? || st.TearDown? || st.AcceptObserve?)
      modifies this`s, this`origin, this`past
      ensures Fresh() && s == Do(old(s), st)
    {
      s := Do(s, st);
      Begin();
    }

    /** An accept loop gets net.ErrClosed from its listener: only one we did not close ourselves is recorded dead. */
    method AcceptFailed(l: Lid)
      requires Same() && l in s.torn && l in s.bound
      modifies this
      ensures Fresh() && dead == if l in old(closed) then old(dead) else old(dead) + {l}
      ensures l in old(closed) ==> s == old(s)
      ensures l !in old(closed) ==>
                Enabled(old(s), AcceptObserve(l)) && s == Do(Do(old(s), AcceptObserve(l)), AcceptMark(l))
    {
      if l !in closed {
        dead := dead + {l};
        s := Do(Do(s, AcceptObserve(l)), AcceptMark(l));
      }
      Begin();
    }
  }

  /** A run from `origin` to `s` in which only thread `t` moves. */
  datatype Past = Past(states: seq<State>, steps: seq<Step>)

  ghost predicate Segment(past: Past, origin: State, s: State, t: Tid) {
    var Past(states, steps) := past;
    && IsRun(states, steps) && states[0] == origin && states[|steps|] == s
    && forall i :: 0 <= i < |steps| ==> steps[i].Run? && steps[i].t == t
  }

  /** While thread `t` moves alone, the other threads and the bindings' fate stand still. */
  lemma {:induction false} SegmentFrame(states: seq<State>, steps: seq<Step>, t: Tid, k: nat)
    requires IsRun(states, steps) && k <= |steps| && forall i :: 0 <= i < |steps| ==> steps[i].Run? && steps[i].t == t
    ensures states[k].pcs - {t} == states[0].pcs - {t} && states[k].torn == states[0].torn
    ensures states[k].dead == states[0].dead
    ensures states[k].marking == states[0].marking
  {
    if k > 0 {
      SegmentFrame(states, steps, t, k - 1);
      assert StepOk(states, steps, k - 1);
      var s, st := states[k - 1], steps[k - 1];
      TornFrame(s, t, s.pcs[t], st.ok, st.id);
      FlagsOnlyGrow(s, t, s.pcs[t], st.ok, st.id);
      LockMoves(s, t, s.pcs[t], st.ok, st.id);
    }
  }

  /** Where a starting thread stands, and what it has done so far. */
  ghost predicate Starting(s: State, origin: State, t: Tid, svc: Svc) {
    t in s.pcs && (svc in s.running || (s.tracked == origin.tracked && s.running == origin.running &&
      (s.pcs[t] in {StartLoad(svc), StartBuild(svc), StartFlag(svc), Done} ||
       (s.pcs[t].StartPublish? && s.pcs[t].svc == svc))))
  }

  /**
   The order of a start: at every state on its way, a service flagged as running has its server
   published, and no listener is tracked for it before it is flagged.
   */
  lemma {:induction false} StartOrder(states: seq<State>, steps: seq<Step>, t: Tid, svc: Svc, k: nat)
    requires IsRun(states, steps) && k <= |steps| && forall i :: 0 <= i < |steps| ==> steps[i].Run? && steps[i].t == t
    requires Inv(states[0]) && t in states[0].pcs && states[0].pcs[t] == StartLoad(svc)
    ensures states[k].running <= states[k].server.Keys
    ensures states[k].tracked != states[0].tracked ==> svc in states[k].running
  {
    RunInv(states, steps, k);
    StartingRun(states, steps, t, svc, k);
  }

  lemma {:induction false} StartingRun(states: seq<State>, steps: seq<Step>, t: Tid, svc: Svc, k: nat)
    requires IsRun(states, steps) && k <= |steps| && forall i :: 0 <= i < |steps| ==> steps[i].Run? && steps[i].t == t
    requires t in states[0].pcs && states[0].pcs[t] == StartLoad(svc)
    ensures Starting(states[k], states[0], t, svc) && StartThread(states[k].pcs[t], svc)
  {
    if k > 0 {
      StartingRun(states, steps, t, svc, k - 1);
      assert StepOk(states, steps, k - 1);
      StartingStep(states[k - 1], states[0], t, svc, steps[k - 1].ok, steps[k - 1].id);
    }
  }

  /** The positions of a thread that starts `svc`. */
  predicate StartThread(pc: Pc, svc: Svc) {
    pc.Done? || ((pc.StartLoad? || pc.StartBuild? || pc.StartPublish? || pc.StartFlag?) && pc.svc == svc) ||
    (pc.Attach? && pc.svc == svc && !pc.sup)
  }

  lemma {:induction false} StartingStep(s: State, origin: State, t: Tid, svc: Svc, ok: bool, id: nat)
    requires Enabled(s, Run(t, ok, id)) && Starting(s, origin, t, svc) && StartThread(s.pcs[t], svc)
    ensures var s' := Do(s, Run(t, ok, id)); Starting(s', origin, t, svc) && StartThread(s'.pcs[t], svc)
  {
    if s.pcs[t].Attach? { AttachingStep(s, t, svc, ok, id); } else { EarlyStep(s, origin, t, svc, s.pcs[t], ok, id); }
  }

  lemma {:induction false} AttachingStep(s: State, t: Tid, svc: Svc, ok: bool, id: nat)
    requires Enabled(s, Run(t, ok, id)) && s.pcs[t].Attach? && StartThread(s.pcs[t], svc) && svc in s.running
    ensures var s' := Do(s, Run(t, ok, id)); svc in s'.running && t in s'.pcs && StartThread(s'.pcs[t], svc)
  {
    PhaseFrame(s, t, svc, s.pcs[t].phase, ok, id);
  }

  lemma {:induction false} EarlyStep(s: State, origin: State, t: Tid, svc: Svc, pc: Pc, ok: bool, id: nat)
    requires Enabled(s, Run(t, ok, id)) && s.pcs[t] == pc && Starting(s, origin, t, svc) && StartThread(pc, svc)
    requires !pc.Attach?
    ensures var s' := Do(s, Run(t, ok, id)); Starting(s', origin, t, svc) && StartThread(s'.pcs[t], svc)
  {
    match pc
    case StartLoad(_) =>
    case StartBuild(_) =>
    case StartPublish(_, _) =>
    case StartFlag(_) =>
  }

  lemma {:induction false} Lengthen(states: seq<State>, steps: seq<Step>, st: Step)
    requires IsRun(states, steps) && Enabled(states[|steps|], st)
    ensures IsRun(states + [Do(states[|steps|], st)], steps + [st])
  {
    var states', steps' := states + [Do(states[|steps|], st)], steps + [st];
    forall i | 0 <= i < |steps'| ensures StepOk(states', steps', i) {
      if i < |steps| { assert StepOk(states, steps, i); }
    }
  }

  /** Steps that leave the shared state alone. */
  predicate Silent(pc: Pc, ok: bool) {
    match pc
    case StartLoad(_) => true
    case StartBuild(_) => !ok
    case StopLoad(_) => true
    case StopServer(_) => true
    case StopClosing(_, _) => !ok
    case SupTick(_) => true
    case SupHealth(_) => true
    case SupCheck(_) => true
    case Attach(_, phase, _) =>
      phase.LoadServer? || phase.LoadRunning? || phase.Health? || phase.Connected? || (phase.Bind? && !ok)
    case _ => false
  }

  function New(bound: Option<Lid>): set<Lid> {
    if bound.Some? then {bound.value} else {}
  }

  predicate LiveIn(tracked: map<Svc, Lid>, dead: set<Lid>, svc: Svc) {
    svc in tracked && tracked[svc] !in dead
  }

  /** What an attach of a running service leaves tracked. */
  function TrackedAfter(tracked: map<Svc, Lid>, dead: set<Lid>, svc: Svc, up: bool, bound: Option<Lid>): map<Svc, Lid> {
    if LiveIn(tracked, dead, svc) || !up then tracked
    else if bound.Some? then tracked[svc := bound.value] else tracked - {svc}
  }

  function PortAfter(tracked: map<Svc, Lid>, dead: set<Lid>, port: int, svc: Svc, up: bool, bound: Option<Lid>): int {
    if svc != Vnc then port else if LiveIn(tracked, dead, svc) || (up && bound.Some?) then VNC_PORT else 0
  }

  /** A listener that is replaced is closed. */
  function ClosedAfter(tracked: map<Svc, Lid>, dead: set<Lid>, closed: set<Lid>, svc: Svc, up: bool): set<Lid> {
    if LiveIn(tracked, dead, svc) || !up || svc !in tracked then closed else closed + {tracked[svc]}
  }

  /** Where an attach goes on after its health check. */
  function AfterHealth(svc: Svc, srv: Srv, live: bool): Phase {
    if live then (if svc == Vnc then SetPort else Unlock) else if svc == Vnc then ClearPort(srv) else Connected(srv)
  }

  /** An attach heals its own service when it can, leaves the others, and makes the port tell the truth. */
  lemma {:induction false} AttachMeans(tracked: map<Svc, Lid>, dead: set<Lid>, port: int, svc: Svc, up: bool,
                                       bound: Option<Lid>)
    requires New(bound) !! dead
    ensures var after := TrackedAfter(tracked, dead, svc, up, bound);
            && (LiveIn(after, dead, svc) <==> LiveIn(tracked, dead, svc) || (up && bound.Some?))
            && (forall other :: other != svc ==> (LiveIn(after, dead, other) <==> LiveIn(tracked, dead, other)))
            && (svc == Vnc ==> (PortAfter(tracked, dead, port, svc, up, bound) != 0 <==> LiveIn(after, dead, svc)))
  {
  }

  /** What a supervisor's check of one service leaves tracked. */
  function Checked(running: set<Svc>, tracked: map<Svc, Lid>, dead: set<Lid>, svc: Svc, up: bool,
                   bound: Option<Lid>): map<Svc, Lid> {
    if svc in running then TrackedAfter(tracked, dead, svc, up, bound) else tracked
  }

  function CheckedAll(running: set<Svc>, tracked: map<Svc, Lid>, dead: set<Lid>, up: bool,
                      a: Option<Lid>, b: Option<Lid>, c: Option<Lid>): map<Svc, Lid> {
    var t1 := Checked(running, tracked, dead, Terminal, up, a);
    var t2 := Checked(running, t1, dead, Vnc, up, b);
    Checked(running, t2, dead, H264, up, c)
  }

  /** Three checks with the network up and every bind succeeding leave nothing running without a live listener. */
  lemma {:induction false} AllHealed(running: set<Svc>, tracked: map<Svc, Lid>, dead: set<Lid>, a: Option<Lid>,
                                     b: Option<Lid>, c: Option<Lid>)
    requires a.Some? && b.Some? && c.Some? && {a.value, b.value, c.value} !! dead
    ensures forall svc :: svc in running ==> LiveIn(CheckedAll(running, tracked, dead, true, a, b, c), dead, svc)
  {
    var t1 := Checked(running, tracked, dead, Terminal, true, a);
    var t2 := Checked(running, t1, dead, Vnc, true, b);
    var three := {a.value, b.value, c.value};
    assert a.value in three && b.value in three && c.value in three;
    AttachMeans(tracked, dead, 0, Terminal, true, a);
    AttachMeans(t1, dead, 0, Vnc, true, b);
    AttachMeans(t2, dead, 0, H264, true, c);
    forall svc | svc in running ensures LiveIn(Checked(running, t2, dead, H264, true, c), dead, svc) {
      match svc case Terminal => case Vnc => case H264 =>
    }
  }

  // ---- starting the VNC server ----

  datatype Tried = Started | Transient | Unsupported

  const MAX_RETRIES: nat := 3

  function Doubled(n: nat): nat {
    if n == 0 then 1 else 2 * Doubled(n - 1)
  }

  /**
   Retries with doubling pauses (in milliseconds). It succeeds exactly when one of the first four tries
   starts the server with nothing but transient failures before it, and stops at the first other outcome.
   */
  method StartWithRetry(tries: nat -> Tried) returns (ok: bool, attempts: nat, paused: nat)
    ensures 1 <= attempts <= 4
    ensures forall k :: 0 <= k < attempts - 1 ==> tries(k) == Transient
    ensures ok <==> tries(attempts - 1) == Started
    ensures tries(attempts - 1) == Transient ==> attempts == 4
    ensures paused == 500 * (Doubled(attempts - 1) - 1)
  {
    var interval := 500;
    paused := 0;
    for attempt := 0 to MAX_RETRIES + 1
      invariant attempt <= MAX_RETRIES
      invariant forall k :: 0 <= k < attempt ==> tries(k) == Transient
      invariant interval == 500 * Doubled(attempt) && paused == 500 * (Doubled(attempt) - 1)
    {
      match tries(attempt) {
        case Started => return true, attempt + 1, paused;
        case Unsupported => return false, attempt + 1, paused;
        case Transient =>
          if attempt == MAX_RETRIES { return false, attempt + 1, paused; }
          paused := paused + interval;
          interval := interval * 2;
      }
    }
    assert false;
  }
}
