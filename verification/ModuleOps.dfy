/**
 Install, uninstall, start, stop and boot as the sequences of atomic effects they have on the node.

 Each operation is a function from the node and the answers of the outside world (reads, writes,
 docker, git, signature checks) to the effects it performs and whether it reports success. A crash is
 a cut of that sequence.
 */
module ModuleOps {
  import opened Prelude
  import opened Text
  import opened Manifest
  import opened ModuleConfig
  import opened Node

  datatype Outcome = Outcome(effects: seq<Effect>, ok: bool)

  /** A compose action: a success took effect, a failure may have. */
  datatype Compose = Worked | Failed(took: bool)

  function DownEffects(c: Compose, name: string): seq<Effect> {
    if c.Worked? || c.took then [Down(name)] else []
  }

  function UpEffects(c: Compose, name: string): seq<Effect> {
    if c.Worked? || c.took then [Up(name)] else []
  }

  /** setServiceDesiredStatus. */
  function StatusEdit(n: Node, name: string, status: string, io: Io): Option<Effect> {
    if n.manifest.Some? && io.readOk && io.writeOk && ServiceOf(n, name).Some?
    then Some(Edit(SetStatus(name, status))) else None
  }

  function Optional(e: Option<Effect>): seq<Effect> {
    if e.Some? then [e.value] else []
  }

  // ---- stop ----

  /** `compose`: None when the manifest records no compose file or the file is gone. */
  datatype StopEnv = StopEnv(readOk: bool, io: Io, compose: Option<Compose>)

  function StopRun(n: Node, name: string, env: StopEnv): (r: Outcome)
    ensures forall e :: e in r.effects ==> e == Edit(SetStatus(name, STOPPED)) || e == Down(name)
    ensures r.effects != [] ==>
              r.effects[0] == Edit(SetStatus(name, STOPPED)) && n.manifest.Some? && ServiceOf(n, name).Some?
    ensures r.effects != [] ==> forall e :: e in r.effects[1..] ==> e == Down(name)
  {
    if n.manifest.None? || !env.readOk then Outcome([], false)
    else
      var mark := StatusEdit(n, name, STOPPED, env.io);
      if mark.None? then Outcome([], false)
      else if env.compose.None? then Outcome([mark.value], true)
      else Outcome([mark.value] + DownEffects(env.compose.value, name), env.compose.value.Worked?)
  }

  datatype CcStopEnv = CcStopEnv(readOk: bool, io: Io, compose: Compose, legacy: Compose)

  /** The control center's stop always runs the compose down, then removes a legacy container. */
  function CcStopRun(n: Node, name: string, env: CcStopEnv): (r: Outcome)
    ensures forall e :: e in r.effects ==> e == Edit(SetStatus(name, STOPPED)) || e == Down(name)
    ensures r.effects != [] ==>
              r.effects[0] == Edit(SetStatus(name, STOPPED)) && n.manifest.Some? && ServiceOf(n, name).Some?
    ensures r.effects != [] ==> forall e :: e in r.effects[1..] ==> e == Down(name)
  {
    if n.manifest.None? || !env.readOk || ServiceOf(n, name).None? then Outcome([], false)
    else
      var mark := StatusEdit(n, name, STOPPED, env.io);
      if mark.None? then Outcome([], false)
      else Outcome([mark.value] + DownEffects(env.compose, name) + DownEffects(env.legacy, name), env.compose.Worked?)
  }

  // ---- finding the manifest, or starting a new one ----

  /** How the search for the manifest turns out, and the two writes of a new configuration should it fail. */
  datatype Finding = Finding(readOk: bool, wrote: bool, pointed: bool)

  predicate Reads(n: Node, f: Finding) {
    n.manifest.Some? && f.readOk
  }

  /**
   findOrCreateManifest: a manifest that cannot be read, for whatever reason, is taken for missing. An empty
   one is written to ~/citadel-node, and the node is pointed there.
   */
  function Opening(n: Node, f: Finding): Outcome {
    if Reads(n, f) then Outcome([], true)
    else if !f.wrote then Outcome([], false)
    else if !f.pointed then Outcome([EmptyHome], false)
    else Outcome([EmptyHome, PointHome], true)
  }

  /** The node with an empty manifest in ~/citadel-node. */
  function Emptied(n: Node): Node {
    n.(manifest := Some(EMPTY), files := if n.home.Some? then n.home.value else n.files, home := None)
  }

  /** The node as the rest of the operation finds it. */
  function Opened(n: Node, f: Finding): Node {
    if Reads(n, f) then n else Emptied(n)
  }

  // ---- start, restart, run ----

  datatype StartEnv = StartEnv(readOk: bool, io: Io, hasCompose: bool, compose: Compose)

  function StartRun(n: Node, name: string, env: StartEnv): Outcome {
    if n.manifest.None? || !env.readOk then Outcome([], false)
    else
      var clear := StatusEdit(n, name, "", env.io);
      if clear.None? then Outcome([], false)
      else if !env.hasCompose then Outcome([clear.value], false)
      else Outcome([clear.value] + UpEffects(env.compose, name), env.compose.Worked?)
  }

  datatype CcStartEnv = CcStartEnv(readOk: bool, refused: bool, io: Io, legacy: Compose, compose: Compose)

  /** The control center's start and restart: the marker is cleared best-effort, then the stack comes up. */
  function CcStartRun(n: Node, name: string, env: CcStartEnv): Outcome {
    if n.manifest.None? || !env.readOk || ServiceOf(n, name).None? || env.refused then Outcome([], false)
    else Outcome(Optional(StatusEdit(n, name, "", env.io)) + DownEffects(env.legacy, name) +
                 UpEffects(env.compose, name),
                 env.compose.Worked?)
  }

  /** A service in the manifest is brought up: the marker is cleared best-effort first. */
  function Bringing(name: string, io: Io, compose: Compose): seq<Effect> {
    (if io.readOk && io.writeOk then [Edit(SetStatus(name, ""))] else []) + UpEffects(compose, name)
  }

  /** A module without variables: its env file is left alone. */
  const NO_VARS := Recipe([], map[], map[], true)

  datatype RunEnv = RunEnv(
    find: Finding, embedded: bool, composeFile: Option<string>, addOk: bool, io: Io, compose: Compose)

  /** `citadel run <service>`. */
  function SingleRun(n: Node, name: string, env: RunEnv): Outcome {
    var open := Opening(n, env.find);
    if !open.ok then open
    else
      var n0 := PerformAll(n, open.effects);
      if (!env.embedded && ServiceOf(n0, name).None?) || env.composeFile.None? then Outcome(open.effects, false)
      else
        var rest := KnownRun(n0, name, env);
        Outcome(open.effects + rest.effects, rest.ok)
  }

  function KnownRun(n: Node, name: string, env: RunEnv): Outcome
    requires env.composeFile.Some?
  {
    var files := if name in n.files then [] else [PutFiles(name, env.composeFile.value, NO_VARS)];
    var known := ServiceOf(n, name).Some?;
    if !known && !env.addOk then Outcome(files, false)
    else
      Outcome(files + (if known then [] else [Edit(Add(name, []))]) + Bringing(name, env.io, env.compose),
              env.compose.Worked?)
  }

  // ---- uninstall ----

  datatype UninstallEnv = UninstallEnv(
    readOk: bool, compose: Option<Compose>, io: Io, catalogTags: seq<string>, lockOk: bool, filesOk: bool)

  function UninstallRun(n: Node, name: string, env: UninstallEnv): Outcome {
    if n.manifest.None? || !env.readOk || ServiceOf(n, name).None? then Outcome([], true)
    else
      var composed := ServiceOf(n, name).value.composeFile != "" && env.compose.Some?;
      var down := if composed then DownEffects(env.compose.value, name) else [];
      if composed && env.compose.value.Failed? then Outcome(down, false)
      else if !env.io.readOk || !env.io.writeOk then Outcome(down, false)
      else Outcome(down + [Edit(Remove(name, env.catalogTags))]
                   + (if env.lockOk then [DropLock(name)] else [])
                   + (if env.filesOk then [DropFiles(name)] else []), true)
  }

  // ---- install ----

  datatype Assignment = Assignment(source: string, config: Config)

  /** A resolved module: its name, its commit, its routing tags and its config variables. */
  datatype Resolved = Resolved(name: string, ref: string, commit: string, nodeTags: seq<string>, vars: seq<ConfigVar>)

  /**
   InstallFromManifest, apart from the config: done, refused before anything is written, or failed once the
   compose has been copied. `mint` holds the values it can generate, `readOk` is the read of the env file.
   */
  datatype Try = Done(mint: Config, readOk: bool) | Refused | Broken

  datatype InstallEnv = InstallEnv(
    parseOk: bool,
    resolved: Option<Resolved>,
    find: Finding,
    verifyOk: bool,
    carryOk: bool,
    uninstall: UninstallEnv,
    install: Try,
    addIo: Io,
    lockOk: bool,
    clearIo: Io,
    compose: Compose)

  /** ParseSource refuses a blank source, whatever else it refuses. */
  predicate Parses(m: Assignment, env: InstallEnv) {
    TrimSpace(m.source) != "" && env.parseOk
  }

  /** The overrides handed to the install: carried over only when a previous install is being replaced. */
  function Overrides(n: Node, m: Assignment, r: Resolved, carryOk: bool): Config {
    if ServiceOf(n, r.name).None? then m.config
    else Carried(r.vars, if carryOk then EnvOf(FilesOf(n.files, r.name)) else map[], m.config)
  }

  /** Resolve and verify come first; then the old install makes way and the new one takes its place. */
  function InstallRun(n: Node, m: Assignment, env: InstallEnv): Outcome {
    if !Parses(m, env) || env.resolved.None? then Outcome([], false)
    else
      var open := Opening(n, env.find);
      if !open.ok || !env.verifyOk then Outcome(open.effects, false)
      else
        var rest := ReplaceRun(PerformAll(n, open.effects), m, env.resolved.value, env);
        Outcome(open.effects + rest.effects, rest.ok)
  }

  function ReplaceRun(n: Node, m: Assignment, r: Resolved, env: InstallEnv): Outcome {
    var un := if ServiceOf(n, r.name).Some? then UninstallRun(n, r.name, env.uninstall) else Outcome([], true);
    if !un.ok then un
    else
      var rest := FreshRun(PerformAll(n, un.effects), m, r, Overrides(n, m, r, env.carryOk), env);
      Outcome(un.effects + rest.effects, rest.ok)
  }

  function RecipeOf(r: Resolved, overrides: Config, t: Try): Recipe
    requires t.Done?
  {
    Recipe(r.vars, overrides, t.mint, t.readOk)
  }

  /** The config resolves, or has no part in the outcome. */
  predicate Resolves(n: Node, r: Resolved, config: Config, t: Try) {
    t.Done? ==> !Refuses(RecipeOf(r, config, t), EnvOf(FilesOf(n.files, r.name)))
  }

  /** What an install attempt writes. */
  function Written(r: Resolved, overrides: Config, t: Try): seq<Effect> {
    match t
    case Done(_, _) => [PutFiles(r.name, r.commit, RecipeOf(r, overrides, t))]
    case Refused => []
    case Broken => [PutFiles(r.name, r.commit, NO_VARS)]
  }

  /**
   Materialise, register, record, unmark and start. Registering a service that is still there needs no
   write.
   */
  function FreshRun(n: Node, m: Assignment, r: Resolved, config: Config, env: InstallEnv): Outcome {
    if !Resolves(n, r, config, env.install) then Outcome([], false)
    else
      var files := Written(r, config, env.install);
      if !env.install.Done? || !env.addIo.readOk || !(ServiceOf(n, r.name).Some? || env.addIo.writeOk)
      then Outcome(files, false)
      else Outcome(files + [Edit(Add(r.name, r.nodeTags))] + Finish(m, r, env), env.compose.Worked?)
  }

  /** What the lockfile records: the source as requested but trimmed, and the config as assigned. */
  function Provenance(m: Assignment, r: Resolved): LockEntry {
    LockEntry(r.name, TrimSpace(m.source), r.ref, r.commit, m.config)
  }

  /** Provenance, marker and start; the first two are best-effort. */
  function Finish(m: Assignment, r: Resolved, env: InstallEnv): seq<Effect> {
    (if env.lockOk then [PutLock(Provenance(m, r))] else [])
    + Bringing(r.name, env.clearIo, env.compose)
  }

  // ---- boot ----

  /** Both boot paths, over the manifest in order; `citadel run` gives up at the first failure. */
  function BootEffects(services: seq<Service>, outcomes: seq<Compose>, giveUp: bool): seq<Effect>
    requires |outcomes| == |services|
  {
    if services == [] then []
    else if StartDisabled(services[0]) then BootEffects(services[1..], outcomes[1..], giveUp)
    else
      UpEffects(outcomes[0], services[0].name) +
      if outcomes[0].Failed? && giveUp then [] else BootEffects(services[1..], outcomes[1..], giveUp)
  }

  // ---- list ----

  datatype Health = Running | Stopped

  datatype Installed = Installed(
    name: string, source: string, ref: string, commit: string, config: Config, health: Health)

  function Listing(s: Service, lock: seq<LockEntry>, up: set<string>): Installed {
    var e := Lookup(lock, s.name);
    var source := if e.Some? && e.value.source != "" then e.value.source else s.name;
    var health := if StartDisabled(s) then Stopped else if s.name in up then Running else Stopped;
    if e.None? then Installed(s.name, source, "", "", map[], health)
    else Installed(s.name, source, e.value.ref, e.value.commit, e.value.config, health)
  }

  function Listings(services: seq<Service>, lock: seq<LockEntry>, up: set<string>): seq<Installed> {
    seq(|services|, i requires 0 <= i < |services| => Listing(services[i], lock, up))
  }

  function Listed(n: Node): seq<Installed> {
    if n.manifest.None? then [] else Listings(n.manifest.value.services, n.lock, n.up)
  }

  /** Whether the manifest and the lockfile can be read for a list, and the containers whose query fails. */
  datatype ListEnv = ListEnv(readOk: bool, lockOk: bool, unseen: set<string>)

  /** ListInstalled: no manifest is nothing installed, no lockfile is no provenance, no answer is not running. */
  function Report(n: Node, env: ListEnv): seq<Installed> {
    if !env.readOk then [] else Listed(Visible(n, env))
  }

  function Visible(n: Node, env: ListEnv): Node {
    n.(lock := if env.lockOk then n.lock else [], up := n.up - env.unseen)
  }
}
