/** What holds of module operations across failures, crashes and whole runs. */
module ModuleTheorems {
  import opened Prelude
  import opened Text
  import opened Manifest
  import opened ModuleConfig
  import opened Node
  import opened ModuleOps
  import opened UpdateOps

  /** An operation. `Open` is how `module update` begins: it finds the manifest or starts a new one. */
  datatype Call =
    | Open(find: Finding)
    | Stop(name: string, stop: StopEnv)
    | CcStop(name: string, ccStop: CcStopEnv)
    | Start(name: string, start: StartEnv)
    | CcStart(name: string, ccStart: CcStartEnv)
    | RunOne(name: string, run: RunEnv)
    | Uninstall(name: string, uninstall: UninstallEnv)
    | Install(m: Assignment, install: InstallEnv)
    | Update(entry: LockEntry, update: UpdateEnv)
    | Boot(outcomes: seq<Compose>, giveUp: bool)

  function EffectsOf(n: Node, call: Call): seq<Effect> {
    match call
    case Open(find) => Opening(n, find).effects
    case Stop(name, env) => StopRun(n, name, env).effects
    case CcStop(name, env) => CcStopRun(n, name, env).effects
    case Start(name, env) => StartRun(n, name, env).effects
    case CcStart(name, env) => CcStartRun(n, name, env).effects
    case RunOne(name, env) => SingleRun(n, name, env).effects
    case Uninstall(name, env) => UninstallRun(n, name, env).effects
    case Install(m, env) => InstallRun(n, m, env).effects
    case Update(entry, env) => UpdateRun(entry, Found(n, entry, env)).effects
    case Boot(outcomes, giveUp) =>
      if n.manifest.Some? && |outcomes| == |n.manifest.value.services|
      then BootEffects(n.manifest.value.services, outcomes, giveUp) else []
  }

  /** Only a container that is up is found running. */
  function Found(n: Node, entry: LockEntry, env: UpdateEnv): UpdateEnv {
    env.(restart := env.restart && entry.name in n.up)
  }

  /** The service a call is about; a boot or an opening is about none in particular. */
  function Subject(call: Call): Option<string> {
    match call
    case Install(_, env) => if env.resolved.Some? then Some(env.resolved.value.name) else None
    case Boot(_, _) => None
    case Open(_) => None
    case Update(entry, _) => Some(entry.name)
    case _ => Some(call.name)
  }

  // ---- the opening ----

  /** The search for the manifest a call begins with, if it comes to it. */
  function FindingOf(call: Call): Option<Finding> {
    match call
    case Open(find) => Some(find)
    case RunOne(_, env) => Some(env.find)
    case Install(m, env) => if Parses(m, env) && env.resolved.Some? then Some(env.find) else None
    case _ => None
  }

  function Opens(n: Node, call: Call): seq<Effect> {
    if FindingOf(call).Some? then Opening(n, FindingOf(call).value).effects else []
  }

  /**
   The first `k` effects of an opening put an empty manifest in the place of the node's: as soon as it is
   written where the node is in ~/citadel-node already, or when the node is pointed there.
   */
  predicate Replaced(n: Node, f: Finding, k: nat) {
    !Reads(n, f) && f.wrote && if n.home.None? then k >= 1 else f.pointed && k >= 2
  }

  lemma {:induction false} OpeningCut(n: Node, f: Finding, k: nat)
    requires k <= |Opening(n, f).effects|
    ensures PerformAll(n, Opening(n, f).effects[..k]) == if Replaced(n, f, k) then Emptied(n) else n
  {
    var effects := Opening(n, f).effects;
    if k == 1 {
      assert effects[..1] == [EmptyHome] && [EmptyHome][1..] == [];
    } else if k == 2 {
      assert effects[..2] == [EmptyHome, PointHome] && [EmptyHome, PointHome][1..] == [PointHome];
      assert [PointHome][1..] == [];
    }
  }

  lemma {:induction false} OpeningWhole(n: Node, f: Finding)
    requires Opening(n, f).ok
    ensures PerformAll(n, Opening(n, f).effects) == Opened(n, f) && Opened(n, f).manifest.Some?
  {
    var effects := Opening(n, f).effects;
    OpeningCut(n, f, |effects|);
    assert effects[..|effects|] == effects;
  }

  predicate Empties(n: Node, call: Call, k: nat) {
    FindingOf(call).Some? && Replaced(n, FindingOf(call).value, k)
  }

  /** What the part of a call after its opening works on. */
  function Basis(n: Node, call: Call, k: nat): Node {
    if Empties(n, call, k) then Emptied(n) else n
  }

  lemma {:induction false} OpensCut(n: Node, call: Call, k: nat)
    requires k <= |Opens(n, call)|
    ensures PerformAll(n, Opens(n, call)[..k]) == Basis(n, call, k)
  {
    if FindingOf(call).Some? { OpeningCut(n, FindingOf(call).value, k); }
  }

  /** A longer cut leaves the opening whole. */
  lemma {:induction false} BasisWhole(n: Node, call: Call, k: nat)
    requires k >= |Opens(n, call)|
    ensures Basis(n, call, k) == Basis(n, call, |Opens(n, call)|)
  {
  }

  lemma {:induction false} PerformCut(n: Node, open: seq<Effect>, all: seq<Effect>, k: nat)
    requires open <= all && |open| <= k <= |all|
    ensures PerformAll(n, all[..k]) == PerformAll(PerformAll(n, open), all[|open|..k])
  {
    assert all[..k] == open + all[|open|..k];
    PerformConcat(n, open, all[|open|..k]);
  }

  lemma {:induction false} CutSplit(n: Node, call: Call, k: nat)
    requires Opens(n, call) <= EffectsOf(n, call) && k <= |EffectsOf(n, call)|
    ensures var o := |Opens(n, call)|;
            PerformAll(n, EffectsOf(n, call)[..k]) ==
            PerformAll(Basis(n, call, k), EffectsOf(n, call)[o..if k > o then k else o])
  {
    var all, open := EffectsOf(n, call), Opens(n, call);
    if k <= |open| {
      assert all[..k] == open[..k];
      OpensCut(n, call, k);
    } else {
      PerformCut(n, open, all, k);
      assert open[..|open|] == open;
      OpensCut(n, call, |open|);
      BasisWhole(n, call, k);
    }
  }

  // ---- what an operation is about ----

  predicate AllAbout(effects: seq<Effect>, name: string) {
    forall e :: e in effects ==> About(e, name)
  }

  lemma {:induction false} AboutConcat(a: seq<Effect>, b: seq<Effect>, name: string)
    requires AllAbout(a, name) && AllAbout(b, name)
    ensures AllAbout(a + b, name)
  {
  }

  lemma {:induction false} UninstallAbout(n: Node, name: string, env: UninstallEnv)
    ensures AllAbout(UninstallRun(n, name, env).effects, name)
    ensures forall e :: e in UninstallRun(n, name, env).effects ==>
              e.Down? || e.DropLock? || e.DropFiles? || (e.Edit? && e.op.Remove?)
  {
  }

  lemma {:induction false} BringingAbout(name: string, io: Io, compose: Compose)
    ensures AllAbout(Bringing(name, io, compose), name)
  {
  }

  lemma {:induction false} FreshAbout(n: Node, m: Assignment, r: Resolved, config: Config, env: InstallEnv)
    ensures AllAbout(FreshRun(n, m, r, config, env).effects, r.name)
  {
    var files, add := Written(r, config, env.install), [Edit(Add(r.name, r.nodeTags))];
    WrittenAbout(r, config, env.install);
    FinishAbout(m, r, env);
    AboutConcat(files, add, r.name);
    AboutConcat(files + add, Finish(m, r, env), r.name);
  }

  lemma {:induction false} WrittenAbout(r: Resolved, config: Config, t: Try)
    ensures AllAbout(Written(r, config, t), r.name)
  {
  }

  lemma {:induction false} FinishAbout(m: Assignment, r: Resolved, env: InstallEnv)
    ensures AllAbout(Finish(m, r, env), r.name)
  {
    var lock := if env.lockOk then [PutLock(Provenance(m, r))] else [];
    BringingAbout(r.name, env.clearIo, env.compose);
    AboutConcat(lock, Bringing(r.name, env.clearIo, env.compose), r.name);
  }

  lemma {:induction false} ReplaceAbout(n: Node, m: Assignment, r: Resolved, env: InstallEnv)
    ensures AllAbout(ReplaceRun(n, m, r, env).effects, r.name)
  {
    var un := if ServiceOf(n, r.name).Some? then UninstallRun(n, r.name, env.uninstall) else Outcome([], true);
    var rest := FreshRun(PerformAll(n, un.effects), m, r, Overrides(n, m, r, env.carryOk), env);
    UninstallAbout(n, r.name, env.uninstall);
    FreshAbout(PerformAll(n, un.effects), m, r, Overrides(n, m, r, env.carryOk), env);
    AboutConcat(un.effects, rest.effects, r.name);
  }

  lemma {:induction false} InstallAbout(n: Node, m: Assignment, env: InstallEnv)
    requires Parses(m, env) && env.resolved.Some?
    ensures var open := Opening(n, env.find).effects;
            && open <= InstallRun(n, m, env).effects
            && AllAbout(InstallRun(n, m, env).effects[|open|..], env.resolved.value.name)
  {
    var open := Opening(n, env.find).effects;
    ReplaceAbout(PerformAll(n, open), m, env.resolved.value, env);
    var rest := ReplaceRun(PerformAll(n, open), m, env.resolved.value, env).effects;
    assert (open + rest)[|open|..] == rest;
  }

  lemma {:induction false} KnownAbout(n: Node, name: string, env: RunEnv)
    requires env.composeFile.Some?
    ensures AllAbout(KnownRun(n, name, env).effects, name)
  {
    BringingAbout(name, env.io, env.compose);
  }

  lemma {:induction false} RunAbout(n: Node, name: string, env: RunEnv)
    ensures var open := Opening(n, env.find).effects;
            open <= SingleRun(n, name, env).effects && AllAbout(SingleRun(n, name, env).effects[|open|..], name)
  {
    var open := Opening(n, env.find).effects;
    if env.composeFile.Some? {
      var rest := KnownRun(PerformAll(n, open), name, env).effects;
      KnownAbout(PerformAll(n, open), name, env);
      assert (open + rest)[|open|..] == rest;
    }
  }

  lemma {:induction false} StopAbout(n: Node, name: string, env: StopEnv)
    ensures AllAbout(StopRun(n, name, env).effects, name)
  {
  }

  lemma {:induction false} CcStopAbout(n: Node, name: string, env: CcStopEnv)
    ensures AllAbout(CcStopRun(n, name, env).effects, name)
  {
  }

  lemma {:induction false} StartAbout(n: Node, name: string, env: StartEnv)
    ensures AllAbout(StartRun(n, name, env).effects, name)
  {
  }

  lemma {:induction false} CcStartAbout(n: Node, name: string, env: CcStartEnv)
    ensures AllAbout(CcStartRun(n, name, env).effects, name)
  {
  }

  lemma {:induction false} UpdateAbout(entry: LockEntry, env: UpdateEnv)
    requires Stable(entry, env)
    ensures AllAbout(UpdateRun(entry, env).effects, entry.name)
  {
  }

  /** An update's module keeps its name; one that does not writes the files of another. */
  predicate SameName(call: Call) {
    call.Update? ==> Stable(call.entry, call.update)
  }

  lemma {:induction false} CallAbout(n: Node, call: Call)
    requires !call.Boot? && SameName(call)
    ensures Opens(n, call) <= EffectsOf(n, call)
    ensures Subject(call).None? ==> EffectsOf(n, call) == Opens(n, call)
    ensures Subject(call).Some? ==> AllAbout(EffectsOf(n, call)[|Opens(n, call)|..], Subject(call).value)
  {
    match call
    case Open(_) =>
    case Install(m, env) => if Parses(m, env) && env.resolved.Some? { InstallAbout(n, m, env); }
    case Uninstall(name, env) => UninstallAbout(n, name, env);
    case RunOne(name, env) => RunAbout(n, name, env);
    case Stop(name, env) => StopAbout(n, name, env);
    case CcStop(name, env) => CcStopAbout(n, name, env);
    case Start(name, env) => StartAbout(n, name, env);
    case CcStart(name, env) => CcStartAbout(n, name, env);
    case Update(entry, env) => UpdateAbout(entry, Found(n, entry, env));
  }

  /** Of another module, an operation cut anywhere leaves what its opening left. */
  lemma {:induction false} OthersView(n: Node, call: Call, k: nat, other: string)
    requires !call.Boot? && SameName(call) && k <= |EffectsOf(n, call)| && Subject(call) != Some(other)
    ensures ViewOf(PerformAll(n, EffectsOf(n, call)[..k]), other) == ViewOf(Basis(n, call, k), other)
  {
    CallAbout(n, call);
    CutSplit(n, call, k);
    var all, o := EffectsOf(n, call), |Opens(n, call)|;
    if k > o { SliceFrame(Basis(n, call, k), all, o, k, Subject(call).value, other); }
  }

  lemma {:induction false} SliceFrame(n: Node, all: seq<Effect>, o: nat, k: nat, name: string, other: string)
    requires o <= k <= |all| && AllAbout(all[o..], name) && other != name
    ensures ViewOf(PerformAll(n, all[o..k]), other) == ViewOf(n, other)
  {
    assert all[o..k] == all[o..][..k - o];
    EffectsFrame(n, all[o..], name, other, k - o);
  }

  /** The part of a view an interrupted update must not lose. */
  predicate SameHoldings(a: View, b: View) {
    a.service == b.service && a.lock == b.lock && a.files == b.files
  }

  /** An empty manifest in ~/citadel-node makes no difference to a service. */
  predicate Spared(n: Node, name: string) {
    ServiceOf(n, name).None? && (n.home.Some? ==> FilesOf(n.home.value, name) == FilesOf(n.files, name))
  }

  lemma {:induction false} EmptiedView(n: Node, name: string)
    ensures ViewOf(Emptied(n), name) ==
            View(None, Lookup(n.lock, name), FilesOf(if n.home.Some? then n.home.value else n.files, name),
                 name in n.up)
    ensures SameHoldings(ViewOf(Emptied(n), name), ViewOf(n, name)) <==> Spared(n, name)
  {
  }

  /**
   Wherever an operation on one module fails or is cut, another keeps its lock entry and its containers;
   its manifest entry exactly unless it has one and the operation started a new manifest over one that it
   could not read; and everything exactly unless it is touched by such a start.
   */
  lemma {:induction false} OthersUntouched(n: Node, call: Call, k: nat, other: string)
    requires !call.Boot? && SameName(call) && k <= |EffectsOf(n, call)| && Subject(call) != Some(other)
    ensures var v, w := ViewOf(n, other), ViewOf(PerformAll(n, EffectsOf(n, call)[..k]), other);
            && w.lock == v.lock && w.running == v.running
            && (w.service == v.service <==> !Empties(n, call, k) || v.service.None?)
            && (w == v <==> !Empties(n, call, k) || Spared(n, other))
  {
    OthersView(n, call, k, other);
    EmptiedView(n, other);
  }

  // ---- durable stop ----

  predicate Sound(n: Node) {
    n.manifest.Some? ==> WellFormed(n.manifest.value)
  }

  predicate Marked(n: Node, name: string) {
    ServiceOf(n, name).Some? && StartDisabled(ServiceOf(n, name).value)
  }

  /** A boot would not start it: it carries the marker, or is not in the manifest at all. */
  predicate Held(n: Node, name: string) {
    ServiceOf(n, name).Some? ==> Marked(n, name)
  }

  lemma {:induction false} StoppedIsMarker()
    ensures EqualFold(TrimSpace(STOPPED), STOPPED) && !EqualFold(TrimSpace(""), STOPPED)
  {
    assert !IsSpace(STOPPED[0]) && !IsSpace(STOPPED[|STOPPED| - 1]);
    assert TrimLeft(STOPPED) == STOPPED;
    assert TrimRight(STOPPED) == STOPPED;
  }

  lemma {:induction false} MarkEffect(n: Node, name: string, status: string)
    requires n.manifest.Some? && ServiceOf(n, name).Some?
    ensures ServiceOf(Perform(n, Edit(SetStatus(name, status))), name) ==
            Some(ServiceOf(n, name).value.(desiredStatus := status))
  {
    var a := n.manifest.value.services;
    var k := FirstNamed(a, name);
    var b := a[k := a[k].(desiredStatus := status)];
    FirstIs(b, name, k);
  }

  /** The marker is written before anything is brought down, so no crash point leaves the service down and unmarked. */
  lemma {:induction false} StopMarksFirst(n: Node, call: Call, k: nat)
    requires (call.Stop? || call.CcStop?) && k <= |EffectsOf(n, call)|
    ensures var n' := PerformAll(n, EffectsOf(n, call)[..k]);
            && (k > 0 ==> Marked(n', call.name))
            && (call.name in n.up && call.name !in n'.up ==> Marked(n', call.name))
  {
    if k > 0 {
      var effects, name := EffectsOf(n, call), call.name;
      StoppedIsMarker();
      MarkEffect(n, name, STOPPED);
      var n1 := Perform(n, effects[0]);
      assert effects[..k][1..] == effects[1..k];
      assert forall e :: e in effects[1..k] ==> e in effects[1..];
      DownsKeepRest(n1, effects[1..k]);
    } else {
      assert EffectsOf(n, call)[..0] == [];
    }
  }

  lemma {:induction false} DownsKeepRest(n: Node, effects: seq<Effect>)
    requires forall e :: e in effects ==> e.Down?
    ensures PerformAll(n, effects) == n.(up := PerformAll(n, effects).up)
    decreases |effects|
  {
    if effects != [] {
      assert effects[0] in effects && forall e :: e in effects[1..] ==> e in effects;
      DownsKeepRest(Perform(n, effects[0]), effects[1..]);
    }
  }

  /** The calls that are meant to clear a stop of `name`. */
  predicate Clears(call: Call, name: string) {
    (call.Start? || call.CcStart? || call.RunOne? || call.Install?) && Subject(call) == Some(name)
  }

  /** An effect that does not unmark `name`. */
  predicate Harmless(e: Effect, name: string) {
    e.Edit? && e.op.name == name ==> e.op.Remove? || (e.op.SetStatus? && e.op.status == STOPPED)
  }

  lemma {:induction false} SoundEffect(n: Node, e: Effect)
    requires Sound(n)
    ensures Sound(Perform(n, e))
  {
    if e.Edit? && n.manifest.Some? { ApplyKeeps(n.manifest.value, e.op); }
  }

  lemma {:induction false} HeldEffect(n: Node, e: Effect, name: string)
    requires Held(n, name) && Harmless(e, name)
    ensures Held(Perform(n, e), name)
    ensures name !in n.up && e != Up(name) ==> name !in Perform(n, e).up
  {
    if e.Edit? && n.manifest.Some? {
      if e.op.name != name {
        EditFrame(n.manifest.value, e.op, name);
      } else if e.op.Remove? {
        WithoutNone(n.manifest.value.services, name);
      } else if ServiceOf(n, name).Some? {
        StoppedIsMarker();
        MarkEffect(n, name, STOPPED);
      }
    }
  }

  lemma {:induction false} HeldEffects(n: Node, effects: seq<Effect>, name: string)
    requires Sound(n) && Held(n, name) && forall e :: e in effects ==> Harmless(e, name)
    ensures Sound(PerformAll(n, effects)) && Held(PerformAll(n, effects), name)
    ensures name !in n.up && Up(name) !in effects ==> name !in PerformAll(n, effects).up
    decreases |effects|
  {
    if effects != [] {
      assert effects[0] in effects;
      SoundEffect(n, effects[0]);
      HeldEffect(n, effects[0], name);
      assert forall e :: e in effects[1..] ==> e in effects;
      HeldEffects(Perform(n, effects[0]), effects[1..], name);
    }
  }

  /** The services of `services` a boot would start. */
  function Enabled(services: seq<Service>): set<string> {
    set i | 0 <= i < |services| && !StartDisabled(services[i]) :: services[i].name
  }

  /** A boot brings up only services of the manifest that carry no marker. */
  lemma {:induction false} BootOnlyEnabled(services: seq<Service>, outcomes: seq<Compose>, giveUp: bool)
    requires |outcomes| == |services|
    ensures forall e :: e in BootEffects(services, outcomes, giveUp) ==> e.Up? && e.name in Enabled(services)
    decreases |services|
  {
    if services != [] {
      var s, rest := services[0], services[1..];
      BootOnlyEnabled(rest, outcomes[1..], giveUp);
      forall x | x in Enabled(rest) ensures x in Enabled(services) {
        var i :| 0 <= i < |rest| && !StartDisabled(rest[i]) && rest[i].name == x;
        assert services[i + 1] == rest[i];
      }
      if !StartDisabled(s) { assert s.name in Enabled(services); }
    }
  }

  lemma {:induction false} BootHarmless(n: Node, outcomes: seq<Compose>, giveUp: bool, name: string)
    requires Sound(n) && Held(n, name) && n.manifest.Some? && |outcomes| == |n.manifest.value.services|
    ensures forall e :: e in BootEffects(n.manifest.value.services, outcomes, giveUp) ==>
              Harmless(e, name) && e != Up(name)
  {
    var services := n.manifest.value.services;
    BootOnlyEnabled(services, outcomes, giveUp);
    forall i | 0 <= i < |services| && !StartDisabled(services[i]) ensures services[i].name != name {
      FirstIs(services, services[i].name, i);
    }
  }

  /** An update edits no manifest, and brings up only what it found running. */
  lemma {:induction false} UpdateHarmless(n: Node, entry: LockEntry, env: UpdateEnv, name: string)
    ensures forall e :: e in UpdateRun(entry, Found(n, entry, env)).effects ==>
              Harmless(e, name) && (name !in n.up ==> e != Up(name))
  {
  }

  predicate AllHarmless(effects: seq<Effect>, name: string) {
    forall e :: e in effects ==> Harmless(e, name) && e != Up(name)
  }

  lemma {:induction false} OtherHarmless(effects: seq<Effect>, other: string, name: string)
    requires AllAbout(effects, other) && other != name
    ensures AllHarmless(effects, name)
  {
  }

  lemma {:induction false} OpenHarmless(n: Node, call: Call, name: string)
    ensures AllHarmless(Opens(n, call), name)
  {
  }

  /** A call about another service, or about none, does nothing to the marker of this one and does not bring it up. */
  lemma {:induction false} ElsewhereHarmless(n: Node, call: Call, name: string)
    requires !call.Boot? && SameName(call) && Subject(call) != Some(name)
    ensures AllHarmless(EffectsOf(n, call), name)
  {
    var all, open := EffectsOf(n, call), Opens(n, call);
    CallAbout(n, call);
    OpenHarmless(n, call, name);
    if Subject(call).Some? {
      OtherHarmless(all[|open|..], Subject(call).value, name);
      assert all == open + all[|open|..];
    }
  }

  lemma {:induction false} CallHarmless(n: Node, call: Call, name: string)
    requires Sound(n) && Held(n, name) && !Clears(call, name)
    ensures forall e :: e in EffectsOf(n, call) ==> Harmless(e, name) && (name !in n.up ==> e != Up(name))
  {
    if call.Boot? {
      if EffectsOf(n, call) != [] { BootHarmless(n, call.outcomes, call.giveUp, name); }
    } else if call.Update? {
      UpdateHarmless(n, call.entry, call.update, name);
    } else if Subject(call) != Some(name) {
      ElsewhereHarmless(n, call, name);
    }
  }

  /** A history: calls in sequence, each cut after some of its effects. */
  datatype Cut = Cut(call: Call, effects: nat)

  function After(n: Node, c: Cut): Node {
    var effects := EffectsOf(n, c.call);
    PerformAll(n, effects[..if c.effects < |effects| then c.effects else |effects|])
  }

  function AfterAll(n: Node, cuts: seq<Cut>): Node
    decreases |cuts|
  {
    if cuts == [] then n else AfterAll(After(n, cuts[0]), cuts[1..])
  }

  /**
   A stopped service stays stopped: once a boot would not start it, no sequence of boots, crashes and
   operations on any services lifts that or brings the service up, unless one of them is an explicit
   start, restart, run or install of that very service.
   */
  lemma {:induction false} StopIsDurable(n: Node, cuts: seq<Cut>, name: string)
    requires Sound(n) && Held(n, name)
    requires forall c :: c in cuts ==> !Clears(c.call, name)
    ensures Held(AfterAll(n, cuts), name) && (name !in n.up ==> name !in AfterAll(n, cuts).up)
    decreases |cuts|
  {
    if cuts != [] {
      var c := cuts[0];
      assert c in cuts;
      CallHarmless(n, c.call, name);
      var effects := EffectsOf(n, c.call);
      HeldEffects(n, effects[..if c.effects < |effects| then c.effects else |effects|], name);
      StopIsDurable(After(n, c), cuts[1..], name);
    }
  }

  // ---- one service through a sequence of effects ----

  /** What an effect about a service does to everything the node holds about it. */
  function ViewStep(v: View, e: Effect): View {
    match e
    case EmptyHome => v
    case PointHome => v
    case Edit(op) =>
      (match op
       case Add(x, _) => if v.service.Some? then v else v.(service := Some(Service(x, "", ComposeRel(x), 0, "")))
       case Remove(_, _) => v.(service := None)
       case SetStatus(_, status) =>
         if v.service.None? then v else v.(service := Some(v.service.value.(desiredStatus := status))))
    case PutLock(entry) => v.(lock := Some(entry))
    case DropLock(_) => v.(lock := None)
    case PutFiles(_, commit, rc) => v.(files := Some(Materialised(v.files, commit, rc)))
    case DropFiles(_) => v.(files := None)
    case Up(_) => v.(running := true)
    case Down(_) => v.(running := false)
  }

  function ViewFold(v: View, effects: seq<Effect>): View
    decreases |effects|
  {
    if effects == [] then v else ViewFold(ViewStep(v, effects[0]), effects[1..])
  }

  lemma {:induction false} ViewConcat(v: View, a: seq<Effect>, b: seq<Effect>)
    ensures ViewFold(v, a + b) == ViewFold(ViewFold(v, a), b)
    decreases |a|
  {
    if a == [] {
      assert a + b == b;
    } else {
      assert (a + b)[1..] == a[1..] + b;
      ViewConcat(ViewStep(v, a[0]), a[1..], b);
    }
  }

  /** Folding an effect list of known parts into a view. */
  lemma {:induction false} FoldParts(v: View, a: seq<Effect>, b: seq<Effect>, c: seq<Effect>, d: seq<Effect>)
    ensures ViewFold(v, a + b + c + d) == ViewFold(ViewFold(ViewFold(ViewFold(v, a), b), c), d)
  {
    ViewConcat(v, a + b + c, d);
    ViewConcat(v, a + b, c);
    ViewConcat(v, a, b);
  }

  lemma {:induction false} FoldOne(v: View, e: Effect)
    ensures ViewFold(v, [e]) == ViewStep(v, e)
  {
    assert [e][1..] == [];
  }

  lemma {:induction false} EditView(n: Node, op: Op)
    requires n.manifest.Some?
    ensures ServiceOf(Perform(n, Edit(op)), op.name) == ViewStep(ViewOf(n, op.name), Edit(op)).service
  {
    var a, name := n.manifest.value.services, op.name;
    var k := FirstNamed(a, name);
    match op
    case Add(_, _) =>
      if k == |a| {
        assert !HasService(n.manifest.value, name);
        FirstIs(a + [Service(name, "", ComposeRel(name), 0, "")], name, |a|);
      } else {
        assert HasService(n.manifest.value, name);
      }
    case Remove(_, _) => WithoutNone(a, name);
    case SetStatus(_, status) => if k < |a| { MarkEffect(n, name, status); }
  }

  lemma {:induction false} ViewEffect(n: Node, e: Effect, name: string)
    requires About(e, name) && n.manifest.Some?
    ensures Perform(n, e).manifest.Some? && ViewOf(Perform(n, e), name) == ViewStep(ViewOf(n, name), e)
  {
    match e
    case Edit(op) => EditView(n, op);
    case PutLock(entry) => LockFrame(n.lock, entry, name);
    case DropLock(x) => LockFrame(n.lock, LockEntry(x, "", "", "", map[]), name);
    case _ =>
  }

  lemma {:induction false} ViewEffects(n: Node, effects: seq<Effect>, name: string)
    requires n.manifest.Some? && forall e :: e in effects ==> About(e, name)
    ensures PerformAll(n, effects).manifest.Some?
    ensures ViewOf(PerformAll(n, effects), name) == ViewFold(ViewOf(n, name), effects)
    decreases |effects|
  {
    if effects != [] {
      assert effects[0] in effects && forall e :: e in effects[1..] ==> e in effects;
      ViewEffect(n, effects[0], name);
      ViewEffects(Perform(n, effects[0]), effects[1..], name);
    }
  }

  // ---- uninstall ----

  /** The uninstall gets to take the module apart. */
  predicate TakesApart(v: View, env: UninstallEnv) {
    v.service.Some? && env.readOk
  }

  /** There is a stack to bring down. */
  predicate Composed(v: View, env: UninstallEnv) {
    TakesApart(v, env) && v.service.value.composeFile != "" && env.compose.Some?
  }

  /**
   A successful uninstall that got past its read took the entry out and brought the stack down, if the
   entry names a compose file that is there; provenance and files go as far as they could be written.
   */
  lemma {:induction false} UninstallView(n: Node, name: string, env: UninstallEnv, v: View)
    requires UninstallRun(n, name, env).ok && v.service == ServiceOf(n, name)
    ensures ViewFold(v, UninstallRun(n, name, env).effects) ==
            View(if TakesApart(v, env) then None else v.service,
                 if TakesApart(v, env) && env.lockOk then None else v.lock,
                 if TakesApart(v, env) && env.filesOk then None else v.files,
                 v.running && !Composed(v, env))
  {
    var effects := UninstallRun(n, name, env).effects;
    if ServiceOf(n, name).Some? && env.readOk {
      var composed := ServiceOf(n, name).value.composeFile != "" && env.compose.Some?;
      var down := if composed then [Down(name)] else [];
      var edit := [Edit(Remove(name, env.catalogTags))];
      var lock := if env.lockOk then [DropLock(name)] else [];
      var files := if env.filesOk then [DropFiles(name)] else [];
      assert effects == down + edit + lock + files;
      FoldParts(v, down, edit, lock, files);
      FoldMaybe(v, down);
      FoldOne(ViewFold(v, down), edit[0]);
      FoldMaybe(ViewFold(ViewFold(v, down), edit), lock);
      FoldMaybe(ViewFold(ViewFold(ViewFold(v, down), edit), lock), files);
    }
  }

  /** An effect that may be missing. */
  lemma {:induction false} FoldMaybe(v: View, effects: seq<Effect>)
    requires |effects| <= 1
    ensures ViewFold(v, effects) == if effects == [] then v else ViewStep(v, effects[0])
  {
    if effects != [] {
      assert effects == [effects[0]];
      FoldOne(v, effects[0]);
    }
  }

  /**
   A successful uninstall of a module that is there takes its entry out and leaves no container up, if it
   has a compose file, unless it could not read the manifest; then everything stays as it was. Provenance
   and files go exactly if they could be written.
   */
  lemma {:induction false} UninstallLeaves(n: Node, name: string, env: UninstallEnv)
    requires UninstallRun(n, name, env).ok && ServiceOf(n, name).Some?
    ensures var n' := PerformAll(n, UninstallRun(n, name, env).effects);
            if !env.readOk then n' == n
            else
              && ServiceOf(n', name).None?
              && (name in n'.up <==>
                    name in n.up && (ServiceOf(n, name).value.composeFile == "" || env.compose.None?))
              && (name in n'.files <==> name in n.files && !env.filesOk)
              && Lookup(n'.lock, name) == if env.lockOk then None else Lookup(n.lock, name)
  {
    UninstallAbout(n, name, env);
    ViewEffects(n, UninstallRun(n, name, env).effects, name);
    UninstallView(n, name, env, ViewOf(n, name));
  }

  /** A successful uninstall leaves no manifest entry, exactly unless the manifest was there but could not be read. */
  lemma {:induction false} UninstallRemovesIff(n: Node, name: string, env: UninstallEnv)
    requires UninstallRun(n, name, env).ok
    ensures ServiceOf(PerformAll(n, UninstallRun(n, name, env).effects), name).None?
            <==> env.readOk || ServiceOf(n, name).None?
  {
    if n.manifest.Some? {
      UninstallAbout(n, name, env);
      ViewEffects(n, UninstallRun(n, name, env).effects, name);
      UninstallView(n, name, env, ViewOf(n, name));
    }
  }

  /** Uninstalling what is not installed does nothing and succeeds, so a repeated uninstall converges. */
  lemma {:induction false} UninstallIdempotent(n: Node, name: string, env: UninstallEnv, env': UninstallEnv)
    requires UninstallRun(n, name, env).ok && (env.readOk || ServiceOf(n, name).None?)
    ensures var n' := PerformAll(n, UninstallRun(n, name, env).effects);
            UninstallRun(n', name, env') == Outcome([], true)
  {
    UninstallRemovesIff(n, name, env);
  }

  // ---- install ----

  lemma {:induction false} DownsKeepHoldings(v: View, effects: seq<Effect>)
    requires forall e :: e in effects ==> e.Down?
    ensures SameHoldings(ViewFold(v, effects), v)
    decreases |effects|
  {
    if effects != [] {
      assert effects[0] in effects && forall e :: e in effects[1..] ==> e in effects;
      DownsKeepHoldings(ViewStep(v, effects[0]), effects[1..]);
    }
  }

  /** Its old stack cannot be brought down. */
  predicate StaysUp(n: Node, name: string, env: UninstallEnv) {
    && env.readOk && ServiceOf(n, name).Some? && ServiceOf(n, name).value.composeFile != ""
    && env.compose.Some? && env.compose.value.Failed?
  }

  /** The install gives up before it may tear anything down. */
  predicate GivesUpEarly(n: Node, m: Assignment, env: InstallEnv) {
    || !Parses(m, env) || env.resolved.None? || !Opening(n, env.find).ok || !env.verifyOk
    || StaysUp(Opened(n, env.find), env.resolved.value.name, env.uninstall)
  }

  lemma {:induction false} EarlyEffects(n: Node, m: Assignment, env: InstallEnv)
    requires GivesUpEarly(n, m, env)
    ensures !InstallRun(n, m, env).ok
    ensures var open := Opens(n, Install(m, env));
            && open <= InstallRun(n, m, env).effects
            && forall e :: e in InstallRun(n, m, env).effects[|open|..] ==> e.Down?
  {
    var open := Opening(n, env.find);
    if Parses(m, env) && env.resolved.Some? && open.ok && env.verifyOk {
      OpeningWhole(n, env.find);
      var rest := ReplaceRun(Opened(n, env.find), m, env.resolved.value, env).effects;
      assert (open.effects + rest)[|open.effects|..] == rest;
    }
  }

  /**
   Update in place is failure-safe up to the teardown: if resolve, verify or the old stack's compose
   down fails, every module keeps its manifest entry, lock entry and files at every crash point, exactly
   unless the install started a new manifest over one that it could not read.
   */
  lemma {:induction false} FailedUpdateKeepsAll(n: Node, m: Assignment, env: InstallEnv, k: nat, name: string)
    requires GivesUpEarly(n, m, env) && k <= |InstallRun(n, m, env).effects|
    ensures !InstallRun(n, m, env).ok
    ensures SameHoldings(ViewOf(PerformAll(n, InstallRun(n, m, env).effects[..k]), name), ViewOf(n, name))
            <==> !Empties(n, Install(m, env), k) || Spared(n, name)
  {
    var call, effects := Install(m, env), InstallRun(n, m, env).effects;
    var o := |Opens(n, call)|;
    EarlyEffects(n, m, env);
    CutSplit(n, call, k);
    var rest := effects[o..if k > o then k else o];
    assert forall e :: e in rest ==> e in effects[o..];
    DownsKeepRest(Basis(n, call, k), rest);
    EmptiedView(n, name);
  }

  // ---- what an install leaves ----

  predicate Cleared(env: InstallEnv) {
    env.clearIo.readOk && env.clearIo.writeOk
  }

  /** The uninstall inside an update could not read the manifest and took that for success: the old entry stays. */
  predicate KeepsOld(n: Node, r: Resolved, env: InstallEnv) {
    ServiceOf(n, r.name).Some? && !env.uninstall.readOk
  }

  /** The manifest entry after a successful install. */
  function EntryAfter(n: Node, r: Resolved, env: InstallEnv): Service {
    if KeepsOld(n, r, env) then
      var before := ServiceOf(n, r.name).value;
      before.(desiredStatus := if Cleared(env) then "" else before.desiredStatus)
    else Service(r.name, "", ComposeRel(r.name), 0, "")
  }

  /** The lock entry: the new provenance, or whatever the failed write left. */
  function LockAfter(n: Node, m: Assignment, r: Resolved, env: InstallEnv): Option<LockEntry> {
    if env.lockOk then Some(Provenance(m, r))
    else if ServiceOf(n, r.name).Some? && env.uninstall.readOk && env.uninstall.lockOk then None
    else Lookup(n.lock, r.name)
  }

  /** What the uninstall inside an update leaves of the module's files. */
  function FilesLeft(n: Node, r: Resolved, env: InstallEnv): Option<Files> {
    if ServiceOf(n, r.name).Some? && env.uninstall.readOk && env.uninstall.filesOk then None
    else FilesOf(n.files, r.name)
  }

  function FilesAfter(n: Node, m: Assignment, r: Resolved, env: InstallEnv): Files
    requires env.install.Done?
  {
    Materialised(FilesLeft(n, r, env), r.commit, RecipeOf(r, Overrides(n, m, r, env.carryOk), env.install))
  }

  lemma {:induction false} BringView(v: View, r: Resolved, env: InstallEnv)
    requires v.service.Some? && env.compose.Worked?
    ensures ViewFold(v, Bringing(r.name, env.clearIo, env.compose)) ==
            v.(service := Some(if Cleared(env) then v.service.value.(desiredStatus := "") else v.service.value),
               running := true)
  {
    var clear := if Cleared(env) then [Edit(SetStatus(r.name, ""))] else [];
    ViewConcat(v, clear, [Up(r.name)]);
  }

  lemma {:induction false} FinishView(v: View, m: Assignment, r: Resolved, env: InstallEnv)
    requires v.service.Some? && env.compose.Worked?
    ensures ViewFold(v, Finish(m, r, env)) ==
            v.(lock := if env.lockOk then Some(Provenance(m, r)) else v.lock, running := true,
               service := Some(if Cleared(env) then v.service.value.(desiredStatus := "") else v.service.value))
  {
    var lock := if env.lockOk then [PutLock(Provenance(m, r))] else [];
    ViewConcat(v, lock, Bringing(r.name, env.clearIo, env.compose));
    BringView(ViewFold(v, lock), r, env);
  }

  lemma {:induction false} FreshView(n: Node, v: View, m: Assignment, r: Resolved, config: Config, env: InstallEnv)
    requires FreshRun(n, m, r, config, env).ok
    ensures var entry := if v.service.Some? then v.service.value else Service(r.name, "", ComposeRel(r.name), 0, "");
            ViewFold(v, FreshRun(n, m, r, config, env).effects) ==
            View(Some(if Cleared(env) then entry.(desiredStatus := "") else entry),
                 if env.lockOk then Some(Provenance(m, r)) else v.lock,
                 Some(Materialised(v.files, r.commit, RecipeOf(r, config, env.install))), true)
  {
    var files := [PutFiles(r.name, r.commit, RecipeOf(r, config, env.install))];
    var add := [Edit(Add(r.name, r.nodeTags))];
    ViewConcat(v, files + add, Finish(m, r, env));
    ViewConcat(v, files, add);
    FinishView(ViewFold(v, files + add), m, r, env);
  }

  lemma {:induction false} ReplaceView(n: Node, m: Assignment, r: Resolved, env: InstallEnv)
    requires ReplaceRun(n, m, r, env).ok && n.manifest.Some?
    ensures ViewFold(ViewOf(n, r.name), ReplaceRun(n, m, r, env).effects) ==
            View(Some(EntryAfter(n, r, env)), LockAfter(n, m, r, env), Some(FilesAfter(n, m, r, env)), true)
  {
    var v := ViewOf(n, r.name);
    var un := if ServiceOf(n, r.name).Some? then UninstallRun(n, r.name, env.uninstall) else Outcome([], true);
    var n1 := PerformAll(n, un.effects);
    if ServiceOf(n, r.name).Some? { UninstallView(n, r.name, env.uninstall, v); }
    var config := Overrides(n, m, r, env.carryOk);
    ViewConcat(v, un.effects, FreshRun(n1, m, r, config, env).effects);
    FreshView(n1, ViewFold(v, un.effects), m, r, config, env);
  }

  /**
   Everything the node holds about a module after a successful install of it, whatever failed on the way.
   What it held before counts as far as the manifest could be read.
   */
  lemma {:induction false} InstallView(n: Node, m: Assignment, env: InstallEnv)
    requires InstallRun(n, m, env).ok
    ensures var r, n0 := env.resolved.value, Opened(n, env.find);
            var n' := PerformAll(n, InstallRun(n, m, env).effects);
            && n'.manifest.Some?
            && ViewOf(n', r.name) ==
               View(Some(EntryAfter(n0, r, env)), LockAfter(n0, m, r, env), Some(FilesAfter(n0, m, r, env)), true)
  {
    var r, n0 := env.resolved.value, Opened(n, env.find);
    InstallSplit(n, m, env);
    ReplaceAbout(n0, m, r, env);
    ViewEffects(n0, ReplaceRun(n0, m, r, env).effects, r.name);
    ReplaceView(n0, m, r, env);
  }

  lemma {:induction false} InstallSplit(n: Node, m: Assignment, env: InstallEnv)
    requires InstallRun(n, m, env).ok
    ensures var n0 := Opened(n, env.find);
            && n0.manifest.Some? && ReplaceRun(n0, m, env.resolved.value, env).ok
            && PerformAll(n, InstallRun(n, m, env).effects) ==
               PerformAll(n0, ReplaceRun(n0, m, env.resolved.value, env).effects)
  {
    var open, n0 := Opening(n, env.find).effects, Opened(n, env.find);
    OpeningWhole(n, env.find);
    PerformConcat(n, open, ReplaceRun(n0, m, env.resolved.value, env).effects);
  }

  // ---- the env file of an install ----

  /** The module's variable had this value before the install, as far as the install finds out. */
  function ValueKept(n: Node, r: Resolved, env: InstallEnv, k: string): Option<string>
    requires env.install.Done?
  {
    var n0 := Opened(n, env.find);
    var carried := Persisted(EnvOf(FilesOf(n0.files, r.name)), ServiceOf(n0, r.name).Some? && env.carryOk, k);
    if carried.Some? then carried else Persisted(EnvOf(FilesLeft(n0, r, env)), env.install.readOk, k)
  }

  lemma {:induction false} OverridesAre(n: Node, m: Assignment, r: Resolved, carryOk: bool, k: string)
    ensures var o := Overrides(n, m, r, carryOk);
            var was := Persisted(EnvOf(FilesOf(n.files, r.name)), ServiceOf(n, r.name).Some? && carryOk, k);
            && (k in o <==> k in m.config || (IsGenerated(r.vars, k) && was.Some?))
            && (k in o ==> o[k] == if k in m.config then m.config[k] else was.value)
  {
  }

  /** A successful install went through its config. */
  lemma {:induction false} InstallResolves(n: Node, m: Assignment, env: InstallEnv)
    requires InstallRun(n, m, env).ok
    ensures env.install.Done?
    ensures var r, n0 := env.resolved.value, Opened(n, env.find);
            !Refuses(RecipeOf(r, Overrides(n0, m, r, env.carryOk), env.install), EnvOf(FilesLeft(n0, r, env)))
  {
    var r, n0 := env.resolved.value, Opened(n, env.find);
    InstallSplit(n, m, env);
    if ServiceOf(n0, r.name).Some? {
      UninstallAbout(n0, r.name, env.uninstall);
      ViewEffects(n0, UninstallRun(n0, r.name, env.uninstall).effects, r.name);
      UninstallView(n0, r.name, env.uninstall, ViewOf(n0, r.name));
    }
  }

  /** What an install, done, gives a variable that is not assigned. */
  function Unassigned(n: Node, r: Resolved, env: InstallEnv, v: ConfigVar): Option<string>
    requires env.install.Done?
  {
    if !v.generate then if v.default != "" then Some(v.default) else None
    else
      var was := ValueKept(n, r, env, v.name);
      if was.Some? then was
      else if v.name in env.install.mint then Some(env.install.mint[v.name]) else None
  }

  lemma {:induction false} InstallValue(n: Node, m: Assignment, env: InstallEnv, v: ConfigVar)
    requires InstallRun(n, m, env).ok && Declares(env.resolved.value.vars, v, v.name)
    ensures var r, n0 := env.resolved.value, Opened(n, env.find);
            ValueOf(RecipeOf(r, Overrides(n0, m, r, env.carryOk), env.install), EnvOf(FilesLeft(n0, r, env)), v) ==
            if v.name in m.config then Some(m.config[v.name]) else Unassigned(n, r, env, v)
  {
    var r, n0 := env.resolved.value, Opened(n, env.find);
    OverridesAre(n0, m, r, env.carryOk, v.name);
    assert IsGenerated(r.vars, v.name) <==> v.generate;
  }

  /** An assigned value is in the env file after every successful install, whatever kind of variable it is. */
  lemma {:induction false} AssignedReaches(n: Node, m: Assignment, env: InstallEnv, k: string)
    requires InstallRun(n, m, env).ok && Declared(env.resolved.value.vars, k) && k in m.config
    ensures var r := env.resolved.value;
            var n' := PerformAll(n, InstallRun(n, m, env).effects);
            r.name in n'.files && k in n'.files[r.name].env && n'.files[r.name].env[k] == m.config[k]
  {
    var r, n0 := env.resolved.value, Opened(n, env.find);
    var rc, left := RecipeOf(r, Overrides(n0, m, r, env.carryOk), env.install), EnvOf(FilesLeft(n0, r, env));
    InstallView(n, m, env);
    OverridesAre(n0, m, r, env.carryOk, k);
    OverrideWins(rc, left, k);
  }

  /**
   A variable that is not assigned keeps what it had if it is generated and that could be found out, or
   else has a value minted for it; any other has its default.
   */
  lemma {:induction false} UnassignedGets(n: Node, m: Assignment, env: InstallEnv, v: ConfigVar)
    requires InstallRun(n, m, env).ok && Declares(env.resolved.value.vars, v, v.name) && v.name !in m.config
    ensures env.install.Done?
    ensures var r := env.resolved.value;
            var n' := PerformAll(n, InstallRun(n, m, env).effects);
            var was := ValueKept(n, r, env, v.name);
            && r.name in n'.files && n'.files[r.name].commit == r.commit
            && var e := n'.files[r.name].env;
               if v.generate then
                 v.name in e &&
                 if was.Some? then e[v.name] == was.value
                 else v.name in env.install.mint && e[v.name] == env.install.mint[v.name]
               else v.default != "" ==> v.name in e && e[v.name] == v.default
  {
    var r, n0 := env.resolved.value, Opened(n, env.find);
    var rc, left := RecipeOf(r, Overrides(n0, m, r, env.carryOk), env.install), EnvOf(FilesLeft(n0, r, env));
    InstallView(n, m, env);
    InstallResolves(n, m, env);
    InstallValue(n, m, env, v);
    FilledIs(rc, left, v);
    FilledNothing(rc, left);
    assert !Lacks(rc, left, v) by { var i :| 0 <= i < |rc.vars| && rc.vars[i] == v; }
  }

  /** No variable of the module has a value: none is generated, assigned or has a default. */
  predicate NoValues(m: Assignment, vars: seq<ConfigVar>) {
    forall v :: v in vars ==> !v.generate && v.default == "" && v.name !in m.config
  }

  /**
   Nothing else is in the env file, unless there is no variable to write one for: then it is what the last
   install left.
   */
  lemma {:induction false} NothingElse(n: Node, m: Assignment, env: InstallEnv, k: string)
    requires InstallRun(n, m, env).ok
    ensures var r := env.resolved.value;
            var n' := PerformAll(n, InstallRun(n, m, env).effects);
            && r.name in n'.files
            && if NoValues(m, r.vars) then n'.files[r.name].env == EnvOf(FilesLeft(Opened(n, env.find), r, env))
               else
                 && (k in n'.files[r.name].env ==> Declared(r.vars, k))
                 && (forall v :: Declares(r.vars, v, k) && !v.generate && v.default == "" && k !in m.config ==>
                       k !in n'.files[r.name].env)
  {
    var r, n0 := env.resolved.value, Opened(n, env.find);
    var rc, left := RecipeOf(r, Overrides(n0, m, r, env.carryOk), env.install), EnvOf(FilesLeft(n0, r, env));
    InstallView(n, m, env);
    InstallResolves(n, m, env);
    FilledOnlyDeclared(rc, left, k);
    NoValuesIff(n, m, env);
    forall v | Declares(r.vars, v, k) && !v.generate && v.default == "" && k !in m.config
      ensures k !in Filled(rc, left)
    {
      InstallValue(n, m, env, v);
      FilledIs(rc, left, v);
    }
  }

  lemma {:induction false} NoValuesIff(n: Node, m: Assignment, env: InstallEnv)
    requires InstallRun(n, m, env).ok
    ensures env.install.Done?
    ensures var r, n0 := env.resolved.value, Opened(n, env.find);
            var rc, left := RecipeOf(r, Overrides(n0, m, r, env.carryOk), env.install), EnvOf(FilesLeft(n0, r, env));
            Filled(rc, left) == map[] <==> NoValues(m, r.vars)
  {
    var r, n0 := env.resolved.value, Opened(n, env.find);
    var rc, left := RecipeOf(r, Overrides(n0, m, r, env.carryOk), env.install), EnvOf(FilesLeft(n0, r, env));
    InstallResolves(n, m, env);
    FilledNothing(rc, left);
    forall v | v in r.vars
      ensures ValueOf(rc, left, v).None? ==> !v.generate && v.default == "" && v.name !in m.config
    {
      OverridesAre(n0, m, r, env.carryOk, v.name);
      assert !Lacks(rc, left, v) by { var i :| 0 <= i < |rc.vars| && rc.vars[i] == v; }
    }
    if NoValues(m, r.vars) {
      forall v | v in r.vars ensures ValueOf(rc, left, v).None? {
        OverridesAre(n0, m, r, env.carryOk, v.name);
        assert !IsGenerated(r.vars, v.name);
      }
    }
  }

  predicate Mints(t: Try, k: string, x: string) {
    t.Done? && k in t.mint && t.mint[k] == x
  }

  /**
   Secrets outlive an update in place: a value the node generated for the last install is still in the
   env file after the next one, though the uninstall in between deletes it, exactly if it is found, before
   the uninstall or after it, or happens to be minted again. It is found if the install could read the
   manifest and the env file; if not the manifest, then unless the node's directory moves; and, failing the
   read before the uninstall, if the uninstall did not get to delete it.
   */
  lemma {:induction false} SecretsSurvive(n: Node, m: Assignment, env: InstallEnv, v: ConfigVar)
    requires InstallRun(n, m, env).ok && Declares(env.resolved.value.vars, v, v.name)
    requires v.generate && v.name !in m.config && ServiceOf(n, env.resolved.value.name).Some?
    requires Persisted(EnvOf(FilesOf(n.files, env.resolved.value.name)), true, v.name).Some?
    ensures env.install.Done?
    ensures var r, k := env.resolved.value, v.name;
            var n', secret := PerformAll(n, InstallRun(n, m, env).effects), n.files[r.name].env[k];
            var elsewhere := if n.home.Some? then Persisted(EnvOf(FilesOf(n.home.value, r.name)), true, k)
                             else Some(secret);
            r.name in n'.files && k in n'.files[r.name].env &&
            (n'.files[r.name].env[k] == secret <==>
             if Reads(n, env.find)
             then env.carryOk || (env.install.readOk && !(env.uninstall.readOk && env.uninstall.filesOk))
                  || Mints(env.install, k, secret)
             else if env.install.readOk && elsewhere.Some? then elsewhere.value == secret
             else Mints(env.install, k, secret))
  {
    UnassignedGets(n, m, env, v);
    SecretFound(n, env, v.name);
  }

  /** Where an install finds what a variable had. */
  lemma {:induction false} SecretFound(n: Node, env: InstallEnv, k: string)
    requires env.install.Done? && env.resolved.Some? && ServiceOf(n, env.resolved.value.name).Some?
    requires Persisted(EnvOf(FilesOf(n.files, env.resolved.value.name)), true, k).Some?
    ensures var r := env.resolved.value;
            var secret := EnvOf(FilesOf(n.files, r.name))[k];
            ValueKept(n, r, env, k) ==
            if Reads(n, env.find) then
              if env.carryOk || (env.install.readOk && !(env.uninstall.readOk && env.uninstall.filesOk))
              then Some(secret) else None
            else if !env.install.readOk then None
            else if n.home.None? then Some(secret) else Persisted(EnvOf(FilesOf(n.home.value, r.name)), true, k)
  {
    if !Reads(n, env.find) { EmptiedView(n, env.resolved.value.name); }
  }

  /** Where a service is listed, and what a service not touched is listed as. */
  lemma {:induction false} ListedAt(n: Node, name: string)
    requires Sound(n) && n.manifest.Some?
    ensures ServiceOf(n, name).Some? ==> Listing(ServiceOf(n, name).value, n.lock, n.up) in Listed(n)
    ensures forall im :: im in Listed(n) && im.name == name ==>
              ServiceOf(n, name).Some? && im == Listing(ServiceOf(n, name).value, n.lock, n.up)
  {
    var services := n.manifest.value.services;
    var k := FirstNamed(services, name);
    if k < |services| { assert Listed(n)[k] == Listing(services[k], n.lock, n.up); }
    forall im | im in Listed(n) && im.name == name
      ensures ServiceOf(n, name).Some? && im == Listing(ServiceOf(n, name).value, n.lock, n.up)
    {
      var i :| 0 <= i < |services| && Listed(n)[i] == im;
      FirstIs(services, name, i);
    }
  }

  lemma {:induction false} OthersListed(n: Node, n': Node, other: Installed)
    requires Sound(n) && Sound(n') && n'.manifest.Some? && ViewOf(n', other.name) == ViewOf(n, other.name)
    ensures other in Listed(n') <==> other in Listed(n)
  {
    ListedAt(n', other.name);
    if n.manifest.Some? { ListedAt(n, other.name); }
  }

  lemma {:induction false} NewListed(n: Node, e: LockEntry, sv: Service)
    requires Sound(n) && n.manifest.Some? && e.source != "" && Lookup(n.lock, e.name) == Some(e) && e.name in n.up
    requires ServiceOf(n, e.name) == Some(sv)
    ensures forall im: Installed :: im.name == e.name ==>
              (im in Listed(n) <==>
               im == Installed(e.name, e.source, e.ref, e.commit, e.config,
                               if StartDisabled(sv) then Stopped else Running))
  {
    ListedAt(n, e.name);
  }

  lemma {:induction false} ListedAfter(n: Node, effects: seq<Effect>, e: LockEntry, sv: Service, im: Installed)
    requires Sound(n) && AllAbout(effects, e.name) && e.source != ""
    requires var n' := PerformAll(n, effects);
             && n'.manifest.Some? && Lookup(n'.lock, e.name) == Some(e)
             && e.name in n'.up && ServiceOf(n', e.name) == Some(sv)
    ensures im in Listed(PerformAll(n, effects)) <==>
              if im.name == e.name
              then im == Installed(e.name, e.source, e.ref, e.commit, e.config,
                                   if StartDisabled(sv) then Stopped else Running)
              else im in Listed(n)
  {
    SoundEffects(n, effects);
    if im.name == e.name {
      NewListed(PerformAll(n, effects), e, sv);
    } else {
      assert effects[..|effects|] == effects;
      EffectsFrame(n, effects, e.name, im.name, |effects|);
      OthersListed(n, PerformAll(n, effects), im);
    }
  }

  /** The marker outlives an install: the entry stayed, it was marked, and the clearing failed. */
  predicate StaysMarked(n: Node, r: Resolved, env: InstallEnv) {
    !env.uninstall.readOk && Marked(n, r.name) && !Cleared(env)
  }

  lemma {:induction false} EntryMarked(n: Node, r: Resolved, env: InstallEnv)
    ensures StartDisabled(EntryAfter(n, r, env)) <==> StaysMarked(n, r, env)
  {
    StoppedIsMarker();
  }

  /**
   After a successful install whose lock write was made, the node lists the module exactly with the
   requested source (trimmed) and the requested config, and as running if and only if the inner
   uninstall could read the manifest, the module was not marked, or the marker could be cleared. Every
   other listing stays if and only if the install could read the manifest to begin with.
   */
  lemma {:induction false} InstallIsListed(n: Node, m: Assignment, env: InstallEnv, im: Installed)
    requires Sound(n) && InstallRun(n, m, env).ok && env.lockOk
    ensures var r := env.resolved.value;
            var n' := PerformAll(n, InstallRun(n, m, env).effects);
            im in Listed(n') <==>
              if im.name != r.name then im in Listed(n) && Reads(n, env.find)
              else im == Installed(r.name, TrimSpace(m.source), r.ref, r.commit, m.config,
                                   if Reads(n, env.find) && StaysMarked(n, r, env) then Stopped else Running)
  {
    var r, n0 := env.resolved.value, Opened(n, env.find);
    InstallView(n, m, env);
    InstallSplit(n, m, env);
    ReplaceAbout(n0, m, r, env);
    EntryMarked(n0, r, env);
    ListedAfter(n0, ReplaceRun(n0, m, r, env).effects, Provenance(m, r), EntryAfter(n0, r, env), im);
  }

  /** An install of "x" in which everything works but what the parameters say. */
  function PlainInstall(find: Finding, uninstallReads: bool, clears: bool): InstallEnv {
    InstallEnv(true, Some(Resolved("x", "", "c", [], [])), find, true, true,
               UninstallEnv(uninstallReads, None, Io(true, true), [], true, true), Done(map[], true),
               Io(true, true), true, Io(true, clears), Worked)
  }

  /** A stopped module, reinstalled successfully and with its lock write made, that is still listed as stopped. */
  lemma {:induction false} InstalledButStopped()
    ensures exists n: Node, m: Assignment, env: InstallEnv, im: Installed ::
              && Sound(n) && InstallRun(n, m, env).ok && env.lockOk && im.name == env.resolved.value.name
              && im in Listed(PerformAll(n, InstallRun(n, m, env).effects)) && im.health == Stopped
  {
    var before := Service("x", "", "services/x.yml", 0, STOPPED);
    var n := Node(Some(Manifest([before], [])), [], map[], {}, None);
    var m, env := Assignment("x", map[]), PlainInstall(Finding(true, true, true), false, false);
    StoppedIsMarker();
    assert TrimLeft("x") == "x" && TrimRight("x") == "x";
    FirstIs([before], "x", 0);
    assert ServiceOf(n, "x") == Some(before);
    assert InstallRun(n, m, env).ok;
    assert StaysMarked(n, env.resolved.value, env);
    var im := Installed("x", "x", "", "c", map[], Stopped);
    InstallIsListed(n, m, env, im);
  }

  /**
   A successful install that costs another module its entry: its first read of the manifest fails, and all
   that comes after works. The other module, stopped by the operator, is no longer listed.
   */
  lemma {:induction false} InstallLosesAnother()
    ensures exists n: Node, m: Assignment, env: InstallEnv, im: Installed ::
              && Sound(n) && InstallRun(n, m, env).ok && env.lockOk && Marked(n, im.name) && im in Listed(n)
              && im.name != env.resolved.value.name
              && forall other :: other in Listed(PerformAll(n, InstallRun(n, m, env).effects)) ==> other.name != im.name
  {
    var y := Service("y", "", "services/y.yml", 0, STOPPED);
    var n := Node(Some(Manifest([y], [])), [], map[], {}, None);
    var m, env := Assignment("x", map[]), PlainInstall(Finding(false, true, true), true, true);
    StoppedIsMarker();
    assert TrimLeft("x") == "x" && TrimRight("x") == "x";
    FirstIs([y], "y", 0);
    assert ServiceOf(n, "y") == Some(y);
    var im := Listing(y, n.lock, n.up);
    assert Listed(n)[0] == im;
    OpeningWhole(n, env.find);
    assert InstallRun(n, m, env).ok;
    var n' := PerformAll(n, InstallRun(n, m, env).effects);
    forall other | other in Listed(n') ensures other.name != im.name { InstallIsListed(n, m, env, other); }
  }

  lemma {:induction false} SoundEffects(n: Node, effects: seq<Effect>)
    requires Sound(n)
    ensures Sound(PerformAll(n, effects))
    decreases |effects|
  {
    if effects != [] {
      SoundEffect(n, effects[0]);
      SoundEffects(Perform(n, effects[0]), effects[1..]);
    }
  }
}
