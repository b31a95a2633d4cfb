/** Applying a plan: failures stay with their module, and a module whose steps succeed is converged. */
module Convergence {
  import opened Prelude
  import opened Text
  import opened Manifest
  import opened ModuleConfig
  import opened Node
  import opened ModuleOps
  import opened ModuleTheorems
  import opened Reconcile
  import opened LiveModuleOps

  /** A step of the plan, and the operation with which the environment answers it. */
  datatype Work = Work(step: Step, call: Call)

  predicate Fits(w: Work) {
    match w.step.action
    case DoInstall => FitsInstall(w)
    case DoUpdate => FitsInstall(w)
    case DoUninstall => w.call.Uninstall? && w.call.name == w.step.name
    case DoStart => w.call.Start? && w.call.name == w.step.name
    case DoStop => w.call.Stop? && w.call.name == w.step.name
  }

  predicate FitsInstall(w: Work) {
    w.call.Install? && w.step.want.Some? && w.call.m == Assignment(w.step.want.value.source, w.step.want.value.config)
  }

  predicate OkOf(n: Node, call: Call) {
    match call
    case Stop(name, env) => StopRun(n, name, env).ok
    case Start(name, env) => StartRun(n, name, env).ok
    case Uninstall(name, env) => UninstallRun(n, name, env).ok
    case Install(m, env) => InstallRun(n, m, env).ok
    case _ => true
  }

  datatype Passed = Passed(node: Node, failed: set<string>)

  /** One step: the steps of a module that failed already are skipped. */
  function Attempt(p: Passed, w: Work): Passed {
    if w.step.name in p.failed then p
    else Passed(PerformAll(p.node, EffectsOf(p.node, w.call)),
                if OkOf(p.node, w.call) then p.failed else p.failed + {w.step.name})
  }

  function Pass(p: Passed, works: seq<Work>): Passed {
    if works == [] then p else Attempt(Pass(p, works[..|works| - 1]), works[|works| - 1])
  }

  /** The steps of a module that has failed are not attempted. */
  lemma {:induction false} FailedRests(p: Passed, works: seq<Work>)
    requires forall i :: 0 <= i < |works| ==> works[i].step.name in p.failed
    ensures Pass(p, works) == p
  {
    if works != [] { FailedRests(p, works[..|works| - 1]); }
  }

  /** The loop over the plan; the context may be cancelled before any step, and is checked before each. */
  method Apply(ops: LiveOps, works: seq<Work>, cancelled: nat -> bool) returns (failed: set<string>, done: nat,
               ok: bool)
    requires ops.Valid() && forall i :: 0 <= i < |works| ==> Fits(works[i])
    modifies ops
    ensures ops.Valid() && done <= |works| && Passed(ops.node, failed) == Pass(Passed(old(ops.node), {}), works[..done])
    ensures (ok <==> done == |works|) && (forall i :: 0 <= i < done ==> !cancelled(i))
    ensures (done < |works| ==> cancelled(done))
  {
    failed := {};
    for i := 0 to |works|
      invariant ops.Valid() && Passed(ops.node, failed) == Pass(Passed(old(ops.node), {}), works[..i])
      invariant forall k :: 0 <= k < i ==> !cancelled(k)
    {
      if cancelled(i) { return failed, i, false; }
      var w := works[i];
      assert works[..i + 1][..i] == works[..i];
      if w.step.name !in failed {
        var worked := Execute(ops, w.call);
        if !worked { failed := failed + {w.step.name}; }
      }
    }
    return failed, |works|, true;
  }

  method Execute(ops: LiveOps, call: Call) returns (ok: bool)
    requires ops.Valid() && (call.Install? || call.Uninstall? || call.Start? || call.Stop?)
    modifies ops
    ensures ops.Valid() && ok == OkOf(old(ops.node), call)
    ensures ops.node == PerformAll(old(ops.node), EffectsOf(old(ops.node), call))
  {
    match call {
      case Install(m, env) => ok := ops.Install(m, env);
      case Uninstall(name, env) => ok := ops.Uninstall(name, env);
      case Start(name, env) => ok := ops.Start(name, env);
      case Stop(name, env) => ok := ops.Stop(name, env);
    }
    ops.NodeSince(EffectsOf(old(ops.node), call));
  }

  // ---- what the diff sees of one module ----

  /** What ListInstalled reports of a module, from everything the node holds about it. */
  function Reported(v: View): Option<Installed> {
    if v.service.None? then None
    else
      var s, e := v.service.value, v.lock;
      var source := if e.Some? && e.value.source != "" then e.value.source else s.name;
      var health := if StartDisabled(s) then Stopped else if v.running then Running else Stopped;
      Some(if e.None? then Installed(s.name, source, "", "", map[], health)
           else Installed(s.name, source, e.value.ref, e.value.commit, e.value.config, health))
  }

  lemma {:induction false} ActualHas(actual: seq<Installed>, x: string)
    ensures x in ActualOf(actual) <==> exists i :: 0 <= i < |actual| && actual[i].name == x
    ensures x in ActualOf(actual) ==> ActualOf(actual)[x] in actual && ActualOf(actual)[x].name == x
  {
    if actual != [] {
      var init, last := actual[..|actual| - 1], actual[|actual| - 1];
      ActualHas(init, x);
      assert actual == init + [last];
      if i :| 0 <= i < |init| && init[i].name == x { assert actual[i].name == x; }
      if i :| 0 <= i < |actual| && actual[i].name == x { assert i < |init| ==> init[i].name == x; }
    }
  }

  lemma {:induction false} ReportedIsListing(n: Node, x: string)
    ensures Reported(ViewOf(n, x)) ==
            if ServiceOf(n, x).None? then None else Some(Listing(ServiceOf(n, x).value, n.lock, n.up))
  {
  }

  lemma {:induction false} IndexOf(actual: seq<Installed>, im: Installed)
    requires im in actual && forall other :: other in actual && other.name == im.name ==> other == im
    ensures Get(ActualOf(actual), im.name) == Some(im)
  {
    ActualHas(actual, im.name);
    var i :| 0 <= i < |actual| && actual[i] == im;
    assert actual[i].name == im.name;
  }

  /** The diff's index of the list holds what the node holds. */
  lemma {:induction false} IndexIsReported(n: Node, x: string)
    requires Sound(n)
    ensures Get(ActualOf(Listed(n)), x) == Reported(ViewOf(n, x))
  {
    ReportedIsListing(n, x);
    if n.manifest.Some? {
      ListedAt(n, x);
      if ServiceOf(n, x).Some? {
        IndexOf(Listed(n), Listing(ServiceOf(n, x).value, n.lock, n.up));
      } else {
        ActualHas(Listed(n), x);
      }
    }
  }

  /** The part of a report the diff looks at. */
  datatype Key = Key(source: string, config: Config, health: Health)

  function KeyOf(cur: Option<Installed>): Option<Key> {
    if cur.None? then None else Some(Key(cur.value.source, cur.value.config, cur.value.health))
  }

  function KeyAt(n: Node, x: string): Option<Key> {
    KeyOf(Reported(ViewOf(n, x)))
  }

  /** What a successful step makes of it. */
  function StepKey(k: Option<Key>, s: Step): Option<Key> {
    match s.action
    case DoUninstall => None
    case DoStart => if k.None? then None else Some(k.value.(health := Running))
    case DoStop => if k.None? then None else Some(k.value.(health := Stopped))
    case _ => if s.want.None? then k else Some(Key(TrimSpace(s.want.value.source), s.want.value.config, Running))
  }

  function StepsKey(k: Option<Key>, steps: seq<Step>): Option<Key> {
    if steps == [] then k else StepKey(StepsKey(k, steps[..|steps| - 1]), steps[|steps| - 1])
  }

  /** `x` is what the steps of `x`, and no others, install. */
  predicate Named(w: Work, x: string) {
    w.call.Install? && w.call.install.resolved.Some? ==> (w.call.install.resolved.value.name == x <==> w.step.name == x)
  }

  /**
   The steps of `x` did what they report: an install wrote the lockfile and either read the manifest
   when it made way for itself or could clear the marker, and an uninstall read the manifest.
   */
  predicate Dependable(w: Work, x: string) {
    w.step.name == x ==>
      && (w.call.Install? ==> w.call.install.lockOk && (w.call.install.uninstall.readOk || Cleared(w.call.install)))
      && (w.call.Uninstall? ==> w.call.uninstall.readOk)
  }

  /** A successful stop is the marker and then nothing but downs. */
  lemma {:induction false} StopShape(n: Node, name: string, env: StopEnv)
    requires StopRun(n, name, env).ok
    ensures n.manifest.Some? && ServiceOf(n, name).Some?
    ensures var effects := StopRun(n, name, env).effects;
            && effects != [] && effects == [Edit(SetStatus(name, STOPPED))] + effects[1..]
            && (forall e :: e in effects ==> About(e, name)) && forall e :: e in effects[1..] ==> e.Down?
  {
    assert StopRun(n, name, env).effects != [];
  }

  /** What the marker and then downs make of a view. */
  lemma {:induction false} MarkDown(v: View, name: string, down: seq<Effect>)
    requires v.service.Some? && forall e :: e in down ==> e.Down?
    ensures SameHoldings(ViewFold(v, [Edit(SetStatus(name, STOPPED))] + down),
                         v.(service := Some(v.service.value.(desiredStatus := STOPPED))))
  {
    var mark := [Edit(SetStatus(name, STOPPED))];
    ViewConcat(v, mark, down);
    assert ViewFold(v, mark) == v.(service := Some(v.service.value.(desiredStatus := STOPPED)));
    DownsKeepHoldings(ViewFold(v, mark), down);
  }

  /** A marked service is reported stopped, with its source and config. */
  lemma {:induction false} MarkedKey(v: View, w: View)
    requires v.service.Some? && SameHoldings(w, v.(service := Some(v.service.value.(desiredStatus := STOPPED))))
    ensures KeyOf(Reported(w)) == Some(KeyOf(Reported(v)).value.(health := Stopped))
  {
    StoppedIsMarker();
  }

  lemma {:induction false} StopKey(n: Node, name: string, env: StopEnv)
    requires StopRun(n, name, env).ok
    ensures KeyAt(PerformAll(n, StopRun(n, name, env).effects), name) ==
              StepKey(KeyAt(n, name), Step(DoStop, name, None))
  {
    var effects := StopRun(n, name, env).effects;
    StopShape(n, name, env);
    ViewEffects(n, effects, name);
    MarkDown(ViewOf(n, name), name, effects[1..]);
    MarkedKey(ViewOf(n, name), ViewFold(ViewOf(n, name), effects));
  }

  lemma {:induction false} StartKey(n: Node, name: string, env: StartEnv)
    requires StartRun(n, name, env).ok
    ensures KeyAt(PerformAll(n, StartRun(n, name, env).effects), name) ==
              StepKey(KeyAt(n, name), Step(DoStart, name, None))
  {
    var effects := StartRun(n, name, env).effects;
    var clear, up := [Edit(SetStatus(name, ""))], [Up(name)];
    assert effects == clear + up;
    ViewEffects(n, effects, name);
    ViewConcat(ViewOf(n, name), clear, up);
    FoldOne(ViewOf(n, name), clear[0]);
    FoldOne(ViewFold(ViewOf(n, name), clear), up[0]);
    ClearedKey(ViewOf(n, name));
  }

  /** A service without the marker that is up is reported running, with its source and config. */
  lemma {:induction false} ClearedKey(v: View)
    requires v.service.Some?
    ensures var w := v.(service := Some(v.service.value.(desiredStatus := "")), running := true);
            KeyOf(Reported(w)) == Some(KeyOf(Reported(v)).value.(health := Running))
  {
    StoppedIsMarker();
  }

  lemma {:induction false} InstallKey(n: Node, m: Assignment, env: InstallEnv)
    requires InstallRun(n, m, env).ok && env.lockOk
    ensures KeyAt(PerformAll(n, InstallRun(n, m, env).effects), env.resolved.value.name) ==
            Some(Key(TrimSpace(m.source), m.config,
                     if Reads(n, env.find) && StaysMarked(n, env.resolved.value, env) then Stopped else Running))
  {
    InstallView(n, m, env);
    EntryMarked(Opened(n, env.find), env.resolved.value, env);
  }

  lemma {:induction false} StepSettles(n: Node, w: Work, x: string)
    requires Fits(w) && Named(w, x) && Dependable(w, x) && w.step.name == x && OkOf(n, w.call)
    ensures KeyAt(PerformAll(n, EffectsOf(n, w.call)), x) == StepKey(KeyAt(n, x), w.step)
  {
    match w.call
    case Install(m, env) => InstallKey(n, m, env);
    case Uninstall(name, env) => UninstallRemovesIff(n, name, env);
    case Start(name, env) => StartKey(n, name, env);
    case Stop(name, env) => StopKey(n, name, env);
    case _ =>
  }

  /** The call, run to its end, starts a new manifest over one that it could not read. */
  predicate Forgets(n: Node, call: Call) {
    Empties(n, call, |EffectsOf(n, call)|)
  }

  /** A step of another module changes nothing about `x`, or forgets it. */
  lemma {:induction false} StepElsewhere(n: Node, w: Work, x: string)
    requires Fits(w) && Named(w, x) && w.step.name != x
    ensures KeyAt(PerformAll(n, EffectsOf(n, w.call)), x) == if Forgets(n, w.call) then None else KeyAt(n, x)
  {
    var effects := EffectsOf(n, w.call);
    assert effects[..|effects|] == effects;
    OthersView(n, w.call, |effects|, x);
    EmptiedView(n, x);
  }

  function StepsOf(works: seq<Work>): seq<Step> {
    seq(|works|, i requires 0 <= i < |works| => works[i].step)
  }

  /** An attempted step of another module forgets the manifest after the last step of `x`. */
  predicate Forgotten(p: Passed, works: seq<Work>, x: string) {
    works != [] &&
    var init, w := works[..|works| - 1], works[|works| - 1];
    var q := Pass(p, init);
    w.step.name != x && (Forgotten(p, init, x) || (w.step.name !in q.failed && Forgets(q.node, w.call)))
  }

  /** A step that succeeds on a module that is not there makes of it what it would have made of any. */
  lemma {:induction false} StepAnew(n: Node, w: Work, x: string, k: Option<Key>)
    requires Fits(w) && w.step.name == x && OkOf(n, w.call) && KeyAt(n, x).None?
    ensures StepKey(k, w.step) == StepKey(None, w.step)
  {
    match w.call
    case Start(name, env) => assert false;
    case Stop(name, env) => assert false;
    case _ =>
  }

  lemma {:induction false} PassOwn(p: Passed, init: seq<Work>, w: Work, x: string)
    requires Fits(w) && Named(w, x) && Dependable(w, x) && w.step.name == x && OkOf(Pass(p, init).node, w.call)
    requires KeyAt(Pass(p, init).node, x) ==
             if Forgotten(p, init, x) then None else StepsKey(KeyAt(p.node, x), Only(StepsOf(init), x))
    ensures var n := Pass(p, init).node;
            KeyAt(PerformAll(n, EffectsOf(n, w.call)), x) ==
            StepsKey(KeyAt(p.node, x), Only(StepsOf(init), x) + [w.step])
  {
    var only, n := Only(StepsOf(init), x), Pass(p, init).node;
    StepSettles(n, w, x);
    assert (only + [w.step])[..|only|] == only;
    if Forgotten(p, init, x) { StepAnew(n, w, x, StepsKey(KeyAt(p.node, x), only)); }
  }

  lemma {:induction false} PassKeeps(p: Passed, works: seq<Work>, x: string)
    requires Sound(p.node) && x !in Pass(p, works).failed
    requires forall i :: 0 <= i < |works| ==> Fits(works[i]) && Named(works[i], x) && Dependable(works[i], x)
    ensures x !in p.failed && Sound(Pass(p, works).node)
    ensures KeyAt(Pass(p, works).node, x) ==
            if Forgotten(p, works, x) then None else StepsKey(KeyAt(p.node, x), Only(StepsOf(works), x))
  {
    if works != [] {
      var init, w := works[..|works| - 1], works[|works| - 1];
      var q := Pass(p, init);
      PassKeeps(p, init, x);
      assert StepsOf(works)[..|works| - 1] == StepsOf(init);
      SoundEffects(q.node, EffectsOf(q.node, w.call));
      if w.step.name == x {
        PassOwn(p, init, w, x);
      } else {
        StepElsewhere(q.node, w, x);
      }
    }
  }

  lemma {:induction false} StepsKeyOne(k: Option<Key>, a: Step)
    ensures StepsKey(k, [a]) == StepKey(k, a)
  {
    assert [a][..0] == [];
  }

  lemma {:induction false} StepsKeyTwo(k: Option<Key>, a: Step, b: Step)
    ensures StepsKey(k, [a, b]) == StepKey(StepKey(k, a), b)
  {
    assert [a, b][..1] == [a];
    StepsKeyOne(k, a);
  }

  /**
   Nothing is left to do for a module exactly if it is not wanted and not there, or is there with the wanted
   source and config and, unless some other status is wanted, running or stopped as wanted; no status is
   running.
   */
  lemma {:induction false} StepsLeft(x: string, want: Option<Want>, cur: Option<Installed>)
    ensures StepsFor(x, want, cur) == [] <==>
              if want.None? then cur.None?
              else
                && cur.Some? && cur.value.source == want.value.source && cur.value.config == want.value.config
                && (want.value.status in {"", "running"} ==> cur.value.health == Running)
                && (want.value.status == "stopped" ==> cur.value.health == Stopped)
  {
    var a, b, c := Removal(x, want, cur), Change(x, want, cur), Transition(x, want, cur);
    assert a + b + c == [] <==> a == [] && b == [] && c == [];
  }

  lemma {:induction false} RunSettles(x: string, w: Want, seen: Installed, cur: Installed)
    requires !Changes(Some(w), Some(seen)) && Sighting(Some(seen), Some(cur))
    ensures StepsKey(KeyOf(Some(cur)), StepsFor(x, Some(w), Some(seen))) ==
            Some(Key(cur.source, cur.config,
                     if Effective(w) == "running" then Running
                     else if Effective(w) == STOPPED && seen.health == Running then Stopped else cur.health))
  {
    var steps := Transition(x, Some(w), Some(seen));
    assert StepsFor(x, Some(w), Some(seen)) == steps;
    if steps != [] { StepsKeyOne(KeyOf(Some(cur)), steps[0]); }
  }

  lemma {:induction false} RemovalSettles(x: string, seen: Option<Installed>, k: Option<Key>)
    ensures StepsKey(k, StepsFor(x, None, seen)) == if seen.Some? then None else k
  {
    if seen.Some? { StepsKeyOne(k, Step(DoUninstall, x, None)); }
  }

  /** How a module is listed once its plan was made from what was `seen` of it; `cur` is how it really was. */
  lemma {:induction false} ChangedKey(x: string, w: Want, seen: Option<Installed>, cur: Option<Installed>)
    requires Changes(Some(w), seen)
    ensures StepsKey(KeyOf(cur), StepsFor(x, Some(w), seen)) ==
            Some(Key(TrimSpace(w.source), w.config, if Effective(w) == STOPPED then Stopped else Running))
  {
    var change := Step(if seen.None? then DoInstall else DoUpdate, x, Some(w));
    if Effective(w) == STOPPED {
      assert StepsFor(x, Some(w), seen) == [change, Step(DoStop, x, Some(w))];
      StepsKeyTwo(KeyOf(cur), change, Step(DoStop, x, Some(w)));
    } else {
      assert StepsFor(x, Some(w), seen) == [change];
      StepsKeyOne(KeyOf(cur), change);
    }
  }

  /**
   A plan made from what was `seen` of a module settles it: an unwanted module is seen if it is there, a
   wanted one that is to be changed has a trimmed source, and one that is not really matches and is not
   overlooked where it should be stopped.
   */
  predicate Settles(want: Option<Want>, seen: Option<Installed>, cur: Option<Installed>) {
    if want.None? then seen.None? ==> cur.None?
    else if Changes(want, seen) then TrimSpace(want.value.source) == want.value.source
    else
      && !Changes(want, cur)
      && (Effective(want.value) == STOPPED && seen.value.health == Stopped ==> cur.value.health == Stopped)
  }

  /** Nothing is seen, or something that is there; what is seen to run does. */
  predicate Sighting(seen: Option<Installed>, cur: Option<Installed>) {
    seen.None? || (cur.Some? && (seen.value.health == Running ==> cur.value.health == Running))
  }

  /** Nothing is left to do for a module once its own steps have had their effect, exactly if they settle it. */
  lemma {:induction false} StepsSettle(x: string, want: Option<Want>, seen: Option<Installed>,
                                       cur: Option<Installed>, cur': Option<Installed>)
    requires Sighting(seen, cur) && KeyOf(cur') == StepsKey(KeyOf(cur), StepsFor(x, want, seen))
    ensures StepsFor(x, want, cur') == [] <==> Settles(want, seen, cur)
  {
    StepsLeft(x, want, cur');
    if want.None? {
      RemovalSettles(x, seen, KeyOf(cur));
    } else if Changes(want, seen) {
      ChangedKey(x, want.value, seen, cur);
    } else {
      RunSettles(x, want.value, seen.value, cur.value);
    }
  }

  /** What a list shows of a module, wholly read or not. */
  lemma {:induction false} ReportSights(n: Node, env: ListEnv, x: string)
    requires Sound(n)
    ensures Sighting(Get(ActualOf(Report(n, env)), x), Reported(ViewOf(n, x)))
  {
    if env.readOk {
      IndexIsReported(Visible(n, env), x);
    } else {
      ActualHas([], x);
    }
  }

  /** Once the steps of a module have succeeded, it needs no others: its plan settles it, and it is not forgotten. */
  predicate Holds(n: Node, env: ListEnv, desired: seq<Want>, works: seq<Work>, x: string) {
    if Forgotten(Passed(n, {}), works, x) then x !in WantsOf(desired)
    else Settles(Get(WantsOf(desired), x), Get(ActualOf(Report(n, env)), x), Get(ActualOf(Listed(n)), x))
  }

  /**
   One pass converges every module whose own steps succeed, whatever the list it was planned from could
   not read and whatever happens to the others: the next diff plans nothing for it, exactly if the plan
   settles it and no later step of another module forgets the manifest it is in.
   */
  lemma {:induction false} ModuleConverges(n: Node, env: ListEnv, desired: seq<Want>, works: seq<Work>, x: string)
    requires Sound(n) && IsPlan(desired, Report(n, env), StepsOf(works)) && x !in Pass(Passed(n, {}), works).failed
    requires forall i :: 0 <= i < |works| ==> Fits(works[i]) && Named(works[i], x) && Dependable(works[i], x)
    ensures var n' := Pass(Passed(n, {}), works).node;
            StepsFor(x, Get(WantsOf(desired), x), Get(ActualOf(Listed(n')), x)) == [] <==>
              Holds(n, env, desired, works, x)
  {
    var p := Passed(n, {});
    var n', want, seen := Pass(p, works).node, Get(WantsOf(desired), x), Get(ActualOf(Report(n, env)), x);
    PassKeeps(p, works, x);
    IndexIsReported(n, x);
    IndexIsReported(n', x);
    ReportSights(n, env, x);
    if Forgotten(p, works, x) {
      StepsLeft(x, want, Reported(ViewOf(n', x)));
    } else {
      StepsSettle(x, want, seen, Reported(ViewOf(n, x)), Reported(ViewOf(n', x)));
    }
  }

  /** A pass without failures leaves nothing to plan exactly if every module is settled and none forgotten. */
  lemma {:induction false} PassConverges(n: Node, env: ListEnv, desired: seq<Want>, works: seq<Work>, next: seq<Step>)
    requires Sound(n) && IsPlan(desired, Report(n, env), StepsOf(works)) && Pass(Passed(n, {}), works).failed == {}
    requires forall i :: 0 <= i < |works| ==>
               Fits(works[i]) && Named(works[i], works[i].step.name) && Dependable(works[i], works[i].step.name)
    requires IsPlan(desired, Listed(Pass(Passed(n, {}), works).node), next)
    ensures next == [] <==> forall x :: Holds(n, env, desired, works, x)
  {
    forall x ensures Only(next, x) == [] <==> Holds(n, env, desired, works, x) {
      ModuleConverges(n, env, desired, works, x);
    }
    if forall x :: Only(next, x) == [] { OnlyEmpty(next); }
  }

  /**
   A list without the lockfile shows a module that matches its assignment as changed, exactly unless the
   assignment is the bare name without a config.
   */
  lemma {:induction false} LostLockDriftsIff(n: Node, env: ListEnv, w: Want)
    requires Sound(n) && !Changes(Some(w), Get(ActualOf(Listed(n)), w.key)) && env.readOk && !env.lockOk
    ensures Changes(Some(w), Get(ActualOf(Report(n, env)), w.key)) <==> w.source != w.key || w.config != map[]
  {
    IndexIsReported(n, w.key);
    IndexIsReported(Visible(n, env), w.key);
  }

  /** What a list entry reports as source and config, from the lock entry of its name. */
  function ReportedSource(e: Option<LockEntry>, name: string): string {
    if e.Some? && e.value.source != "" then e.value.source else name
  }

  function ReportedConfig(e: Option<LockEntry>): Config {
    if e.Some? then e.value.config else map[]
  }

  /** How a module that was not there is listed after a successful install. */
  lemma {:induction false} InstallAnew(n: Node, m: Assignment, env: InstallEnv)
    requires InstallRun(n, m, env).ok && ServiceOf(n, env.resolved.value.name).None?
    ensures var x := env.resolved.value.name;
            var e := if env.lockOk then Some(Provenance(m, env.resolved.value)) else Lookup(n.lock, x);
            var cur := Reported(ViewOf(PerformAll(n, InstallRun(n, m, env).effects), x));
            cur.Some? && cur.value.source == ReportedSource(e, x) && cur.value.config == ReportedConfig(e)
  {
    InstallView(n, m, env);
  }

  /** A module that was not there is not there after a successful install of another. */
  lemma {:induction false} InstallElsewhere(n: Node, m: Assignment, env: InstallEnv, x: string)
    requires InstallRun(n, m, env).ok && env.resolved.value.name != x && ServiceOf(n, x).None?
    ensures Reported(ViewOf(PerformAll(n, InstallRun(n, m, env).effects), x)) == None
  {
    var effects := InstallRun(n, m, env).effects;
    assert effects[..|effects|] == effects;
    OthersUntouched(n, Install(m, env), |effects|, x);
  }

  /**
   When a successful install of a module that was not there satisfies its assignment: it resolves to its
   key, and what the lockfile then holds for it, the new provenance or a leftover if the write failed,
   has the assigned source and config.
   */
  lemma {:induction false} InstallConvergesIff(n: Node, w: Want, env: InstallEnv)
    requires Sound(n) && ServiceOf(n, w.key).None? && InstallRun(n, Assignment(w.source, w.config), env).ok
    ensures var n' := PerformAll(n, InstallRun(n, Assignment(w.source, w.config), env).effects);
            var left := Lookup(n.lock, w.key);
            Changes(Some(w), Get(ActualOf(Listed(n')), w.key)) <==>
              || env.resolved.value.name != w.key
              || if env.lockOk then TrimSpace(w.source) != w.source
                 else ReportedSource(left, w.key) != w.source || ReportedConfig(left) != w.config
  {
    var m := Assignment(w.source, w.config);
    var effects := InstallRun(n, m, env).effects;
    SoundEffects(n, effects);
    IndexIsReported(PerformAll(n, effects), w.key);
    if env.resolved.value.name == w.key { InstallAnew(n, m, env); } else { InstallElsewhere(n, m, env, w.key); }
  }
}
