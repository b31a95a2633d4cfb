/** `citadel module update` of one module, and its rollback, as the sequence of atomic effects they have. */
module UpdateOps {
  import opened Prelude
  import opened ModuleConfig
  import opened Node
  import opened ModuleOps

  datatype Decision = Unknown | Unchanged | Changed

  function CompareCommits(locked: string, resolved: string): Decision {
    if locked == "" || resolved == "" then Unknown else if locked == resolved then Unchanged else Changed
  }

  datatype Probe = NotProbeable | Healthy | Unhealthy

  /** How the rollback's own steps turn out; `resolved` is the module at the previously locked commit. */
  datatype BackEnv = BackEnv(resolved: Option<Resolved>, install: Try, lockOk: bool, up: Compose)

  /** `restart`: restarting is asked for and the container was found running. */
  datatype UpdateEnv = UpdateEnv(
    managed: bool,
    resolved: Option<Resolved>,
    install: Try,
    lockOk: bool,
    restart: bool,
    up: Compose,
    probe: Probe,
    back: BackEnv)

  /** The lock entry an update records: the assigned config is not part of it. */
  function Renewed(entry: LockEntry, r: Resolved): LockEntry {
    LockEntry(r.name, entry.source, entry.ref, r.commit, map[])
  }

  predicate Moves(entry: LockEntry, env: UpdateEnv) {
    env.resolved.Some? && CompareCommits(entry.commit, env.resolved.value.commit) == Changed
  }

  predicate RollsBack(entry: LockEntry, env: UpdateEnv) {
    Moves(entry, env) && env.install.Done? && env.restart && env.up.Worked? && env.probe == Unhealthy
  }

  function RollbackRun(prev: LockEntry, b: BackEnv): seq<Effect> {
    if b.resolved.None? then []
    else Written(b.resolved.value, map[], b.install) +
         if !b.install.Done? then []
         else (if b.lockOk then [PutLock(prev)] else []) + UpEffects(b.up, prev.name)
  }

  function UpdateRun(entry: LockEntry, env: UpdateEnv): Outcome {
    if !Moves(entry, env) then Outcome([], false)
    else
      var r := env.resolved.value;
      if !env.install.Done? then Outcome(Written(r, map[], env.install), false)
      else
        var lock := if env.lockOk then [PutLock(Renewed(entry, r))] else [];
        var up := if env.restart then UpEffects(env.up, entry.name) else [];
        var back := if RollsBack(entry, env) then RollbackRun(entry, env.back) else [];
        Outcome(Written(r, map[], env.install) + lock + up + back, !RollsBack(entry, env))
  }

  /** Both resolutions keep the module's name, and the pinned one really is the commit it was pinned to. */
  predicate Stable(entry: LockEntry, env: UpdateEnv) {
    && (env.resolved.Some? ==> env.resolved.value.name == entry.name)
    && (env.back.resolved.Some? ==>
          env.back.resolved.value.name == entry.name && env.back.resolved.value.commit == entry.commit)
  }
}
