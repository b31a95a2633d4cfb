/** `citadel module update`: re-install what moved upstream, restart it, and roll back what comes up unhealthy. */
module ModuleUpdate {
  import opened Prelude
  import opened Manifest
  import opened ModuleConfig
  import opened Node
  import opened ModuleOps
  import opened UpdateOps
  import opened ModuleTheorems
  import opened ModuleOutcomes
  import opened LiveModuleOps
  import opened Reconcile
  import opened Convergence

  // ---- locked commit against installed commit ----

  predicate InSync(v: View) {
    v.lock.Some? && v.files.Some? && v.files.value.commit == v.lock.value.commit
  }

  /** The module has moved upstream, as far as both commits are known. */
  predicate Outdated(entry: LockEntry, env: UpdateEnv) {
    env.resolved.Some? && entry.commit != "" && env.resolved.value.commit !in {"", entry.commit}
  }

  /** The module is installed anew. */
  predicate Renews(entry: LockEntry, env: UpdateEnv) {
    Outdated(entry, env) && env.install.Done?
  }

  /** It was restarted and came up definitively unhealthy. */
  predicate Sick(env: UpdateEnv) {
    env.restart && env.up.Worked? && env.probe == Unhealthy
  }

  predicate BackWrote(entry: LockEntry, env: UpdateEnv) {
    Renews(entry, env) && Sick(env) && env.back.resolved.Some? && !env.back.install.Refused?
  }

  /** The new compose is what is left in the services directory. */
  predicate FilesMove(entry: LockEntry, env: UpdateEnv) {
    Outdated(entry, env) && !env.install.Refused? && !BackWrote(entry, env)
  }

  /** The new commit is what is left in the lockfile. */
  predicate LockMoves(entry: LockEntry, env: UpdateEnv) {
    Renews(entry, env) && env.lockOk &&
    !(BackWrote(entry, env) && env.back.install.Done? && env.back.lockOk)
  }

  /** The recipe of the env file an attempt without overrides writes. */
  function WrittenBy(r: Resolved, t: Try): Recipe {
    if t.Done? then RecipeOf(r, map[], t) else NO_VARS
  }

  /** What a rollback leaves of the lock entry, the files and the stack. */
  lemma {:induction false} RollbackView(v: View, prev: LockEntry, b: BackEnv)
    ensures var w := ViewFold(v, RollbackRun(prev, b));
            && w.lock == (if b.resolved.Some? && b.install.Done? && b.lockOk then Some(prev) else v.lock)
            && (if b.resolved.Some? && !b.install.Refused?
                then w.files == Some(Materialised(v.files, b.resolved.value.commit,
                                                  WrittenBy(b.resolved.value, b.install)))
                else w.files == v.files)
            && w.running == (v.running || (b.resolved.Some? && b.install.Done? && Took(b.up)))
  {
    if b.resolved.Some? {
      var files := Written(b.resolved.value, map[], b.install);
      FoldMaybe(v, files);
      if b.install.Done? {
        var lock, up := if b.lockOk then [PutLock(prev)] else [], UpEffects(b.up, prev.name);
        assert RollbackRun(prev, b) == files + lock + up + [];
        FoldParts(v, files, lock, up, []);
        FoldMaybe(ViewFold(v, files), lock);
        UpView(ViewFold(ViewFold(v, files), lock), b.up, prev.name);
      } else {
        assert RollbackRun(prev, b) == files;
      }
    }
  }

  /** What the way up to the probe leaves of them. */
  lemma {:induction false} ForwardView(v: View, entry: LockEntry, r: Resolved, env: UpdateEnv)
    requires env.install.Done?
    ensures var lock := if env.lockOk then [PutLock(Renewed(entry, r))] else [];
            var up := if env.restart then UpEffects(env.up, entry.name) else [];
            var w := ViewFold(ViewFold(ViewFold(v, Written(r, map[], env.install)), lock), up);
            w == View(v.service, if env.lockOk then Some(Renewed(entry, r)) else v.lock,
                      Some(Materialised(v.files, r.commit, RecipeOf(r, map[], env.install))),
                      v.running || (env.restart && Took(env.up)))
  {
    var files := Written(r, map[], env.install);
    var lock := if env.lockOk then [PutLock(Renewed(entry, r))] else [];
    FoldMaybe(v, files);
    FoldMaybe(ViewFold(v, files), lock);
    UpView(ViewFold(ViewFold(v, files), lock), env.up, entry.name);
  }

  lemma {:induction false} UpdateView(v: View, entry: LockEntry, env: UpdateEnv)
    requires Stable(entry, env) && v.lock == Some(entry)
    ensures var w := ViewFold(v, UpdateRun(entry, env).effects);
            && w.lock.Some?
            && w.lock.value.commit == (if LockMoves(entry, env) then env.resolved.value.commit else entry.commit)
            && (FilesMove(entry, env) ==> w.files.Some? && w.files.value.commit == env.resolved.value.commit)
            && (!FilesMove(entry, env) ==>
                  if BackWrote(entry, env) then w.files.Some? && w.files.value.commit == entry.commit
                  else w.files == v.files)
  {
    if Moves(entry, env) && env.install.Done? {
      var r := env.resolved.value;
      var files := Written(r, map[], env.install);
      var lock := if env.lockOk then [PutLock(Renewed(entry, r))] else [];
      var up := if env.restart then UpEffects(env.up, entry.name) else [];
      var back := if RollsBack(entry, env) then RollbackRun(entry, env.back) else [];
      FoldParts(v, files, lock, up, back);
      ForwardView(v, entry, r, env);
      RollbackView(ViewFold(ViewFold(ViewFold(v, files), lock), up), entry, env.back);
    }
  }

  lemma {:induction false} UpdatedView(n: Node, entry: LockEntry, env: UpdateEnv)
    requires n.manifest.Some? && Stable(entry, env) && Lookup(n.lock, entry.name) == Some(entry)
    ensures ViewOf(PerformAll(n, UpdateRun(entry, env).effects), entry.name) ==
            ViewFold(ViewOf(n, entry.name), UpdateRun(entry, env).effects)
  {
    UpdateAbout(entry, env);
    ViewEffects(n, UpdateRun(entry, env).effects, entry.name);
  }

  /** After an update, rolled back or not, lock and files agree exactly when both moved or neither did. */
  lemma {:induction false} UpdateInSyncIff(n: Node, entry: LockEntry, env: UpdateEnv)
    requires n.manifest.Some? && Stable(entry, env)
    requires Lookup(n.lock, entry.name) == Some(entry) && InSync(ViewOf(n, entry.name))
    ensures InSync(ViewOf(PerformAll(n, UpdateRun(entry, env).effects), entry.name)) <==>
            (FilesMove(entry, env) <==> LockMoves(entry, env))
  {
    UpdatedView(n, entry, env);
    UpdateView(ViewOf(n, entry.name), entry, env);
  }

  /** Lock writes succeed, and failed installs leave the files alone. */
  predicate Orderly(env: UpdateEnv) {
    env.lockOk && env.back.lockOk && !env.install.Broken? && !env.back.install.Broken?
  }

  /**
   After an orderly update, on every path through it and its rollback, the locked commit is the installed
   one exactly if it was before or the module was installed anew.
   */
  lemma {:induction false} UpdateKeepsSync(n: Node, entry: LockEntry, env: UpdateEnv)
    requires n.manifest.Some? && Stable(entry, env) && Orderly(env) && Lookup(n.lock, entry.name) == Some(entry)
    ensures InSync(ViewOf(PerformAll(n, UpdateRun(entry, env).effects), entry.name)) <==>
            InSync(ViewOf(n, entry.name)) || Renews(entry, env)
  {
    UpdatedView(n, entry, env);
    UpdateView(ViewOf(n, entry.name), entry, env);
  }

  // ---- the whole command ----

  predicate Picked(only: string, entry: LockEntry, env: UpdateEnv) {
    (only == "" || entry.name == only) && env.managed
  }

  /** The entry is one the command is asked to update, and can. */
  predicate Asked(only: string, entry: LockEntry, env: UpdateEnv) {
    env.managed && only in {"", entry.name}
  }

  /** Every entry of the lockfile as first read, in order. */
  function UpdateAll(only: string, entries: seq<LockEntry>, envs: seq<UpdateEnv>): seq<Effect>
    requires |entries| == |envs|
  {
    if entries == [] then []
    else
      var k := |entries| - 1;
      UpdateAll(only, entries[..k], envs[..k]) +
      if Picked(only, entries[k], envs[k]) then UpdateRun(entries[k], envs[k]).effects else []
  }

  predicate UniqueEntries(entries: seq<LockEntry>) {
    forall i, j :: 0 <= i < j < |entries| ==> entries[i].name != entries[j].name
  }

  lemma {:induction false} LookupAt(lock: seq<LockEntry>, i: nat)
    requires UniqueEntries(lock) && i < |lock|
    ensures Lookup(lock, lock[i].name) == Some(lock[i])
  {
    if i > 0 {
      assert lock[0].name != lock[i].name;
      LookupAt(lock[1..], i - 1);
    }
  }

  /** The entries from `k` on are still as read; in sync are those that were, and those before `k` installed anew. */
  ghost predicate Reached(n: Node, n0: Node, only: string, entries: seq<LockEntry>, envs: seq<UpdateEnv>, k: nat)
    requires k <= |entries| == |envs|
  {
    && n.manifest.Some?
    && (forall i :: k <= i < |entries| ==> Lookup(n.lock, entries[i].name) == Some(entries[i]))
    && (forall i :: 0 <= i < |entries| ==>
          (InSync(ViewOf(n, entries[i].name)) <==>
           || InSync(ViewOf(n0, entries[i].name))
           || (i < k && Asked(only, entries[i], envs[i]) && Renews(entries[i], envs[i]))))
  }

  lemma {:induction false} UpdateFrame(n: Node, entry: LockEntry, env: UpdateEnv, other: string)
    requires Stable(entry, env) && other != entry.name
    ensures ViewOf(PerformAll(n, UpdateRun(entry, env).effects), other) == ViewOf(n, other)
  {
    var effects := UpdateRun(entry, env).effects;
    UpdateAbout(entry, env);
    assert effects[..|effects|] == effects;
    EffectsFrame(n, effects, entry.name, other, |effects|);
  }

  /** One entry of the loop, picked or not. */
  lemma {:induction false} EntryReaches(n: Node, n0: Node, only: string, entries: seq<LockEntry>, envs: seq<UpdateEnv>,
                                        k: nat)
    requires k < |entries| == |envs| && UniqueEntries(entries) && Stable(entries[k], envs[k]) && Orderly(envs[k])
    requires Reached(n, n0, only, entries, envs, k)
    ensures var more := if Picked(only, entries[k], envs[k]) then UpdateRun(entries[k], envs[k]).effects else [];
            Reached(PerformAll(n, more), n0, only, entries, envs, k + 1)
  {
    var entry, env := entries[k], envs[k];
    if Picked(only, entry, env) {
      var n' := PerformAll(n, UpdateRun(entry, env).effects);
      UpdateAbout(entry, env);
      ViewEffects(n, UpdateRun(entry, env).effects, entry.name);
      UpdateKeepsSync(n, entry, env);
      forall i | 0 <= i < |entries| && i != k
        ensures ViewOf(n', entries[i].name) == ViewOf(n, entries[i].name)
      {
        assert entries[i].name != entry.name;
        UpdateFrame(n, entry, env, entries[i].name);
      }
    }
  }

  /** The loop over the lockfile: a module is in sync exactly if it was before or has been installed anew. */
  lemma {:induction false} UpdateAllKeepsSync(n: Node, only: string, entries: seq<LockEntry>, envs: seq<UpdateEnv>,
                                              k: nat)
    requires k <= |entries| == |envs| && UniqueEntries(entries) && Reached(n, n, only, entries, envs, 0)
    requires forall i :: 0 <= i < |entries| ==> Stable(entries[i], envs[i]) && Orderly(envs[i])
    ensures Reached(PerformAll(n, UpdateAll(only, entries[..k], envs[..k])), n, only, entries, envs, k)
  {
    if k > 0 {
      UpdateAllKeepsSync(n, only, entries, envs, k - 1);
      NextEntry(n, only, entries, envs, k - 1);
      EntryReaches(PerformAll(n, UpdateAll(only, entries[..k - 1], envs[..k - 1])), n, only, entries, envs, k - 1);
    }
  }

  /** The loop, one entry further. */
  lemma {:induction false} NextEntry(n: Node, only: string, entries: seq<LockEntry>, envs: seq<UpdateEnv>, k: nat)
    requires k < |entries| == |envs|
    ensures var more := if Picked(only, entries[k], envs[k]) then UpdateRun(entries[k], envs[k]).effects else [];
            PerformAll(n, UpdateAll(only, entries[..k + 1], envs[..k + 1])) ==
            PerformAll(PerformAll(n, UpdateAll(only, entries[..k], envs[..k])), more)
  {
    var more := if Picked(only, entries[k], envs[k]) then UpdateRun(entries[k], envs[k]).effects else [];
    assert entries[..k + 1][..k] == entries[..k] && envs[..k + 1][..k] == envs[..k];
    PerformConcat(n, UpdateAll(only, entries[..k], envs[..k]), more);
  }

  function UpdateEffects(n: Node, only: string, find: Finding, envs: seq<UpdateEnv>): seq<Effect>
    requires |envs| == |n.lock|
  {
    Opening(n, find).effects + if Opening(n, find).ok then UpdateAll(only, n.lock, envs) else []
  }

  lemma {:induction false} OpenedReaches(n: Node, only: string, find: Finding, envs: seq<UpdateEnv>)
    requires UniqueEntries(n.lock) && |envs| == |n.lock| && Opening(n, find).ok
    ensures Reached(Opened(n, find), Opened(n, find), only, n.lock, envs, 0)
  {
    forall j | 0 <= j < |n.lock| ensures Lookup(n.lock, n.lock[j].name) == Some(n.lock[j]) { LookupAt(n.lock, j); }
  }

  /** The directory the command installs to holds the locked commit of an entry. */
  predicate Installs(n: Node, find: Finding, entry: LockEntry) {
    var files := if Reads(n, find) || n.home.None? then n.files else n.home.value;
    entry.name in files && files[entry.name].commit == entry.commit
  }

  lemma {:induction false} InstallsIff(n: Node, find: Finding, i: nat)
    requires UniqueEntries(n.lock) && i < |n.lock|
    ensures InSync(ViewOf(Opened(n, find), n.lock[i].name)) <==> Installs(n, find, n.lock[i])
    ensures Reads(n, find) || n.home.None? ==>
              (Installs(n, find, n.lock[i]) <==> InSync(ViewOf(n, n.lock[i].name)))
  {
    LookupAt(n.lock, i);
  }

  /**
   After the whole command, a module's locked commit is its installed one exactly if it was so, in the
   directory the command found or moved to, or the module was installed anew.
   */
  lemma {:induction false} CommandKeepsSync(n: Node, only: string, find: Finding, envs: seq<UpdateEnv>, i: nat)
    requires |envs| == |n.lock| && UniqueEntries(n.lock) && i < |n.lock| && Opening(n, find).ok
    requires forall i :: 0 <= i < |n.lock| ==> Stable(n.lock[i], envs[i]) && Orderly(envs[i])
    ensures InSync(ViewOf(PerformAll(n, UpdateEffects(n, only, find, envs)), n.lock[i].name)) <==>
            Installs(n, find, n.lock[i]) || (Asked(only, n.lock[i], envs[i]) && Renews(n.lock[i], envs[i]))
  {
    var entries := n.lock;
    OpeningWhole(n, find);
    OpenedReaches(n, only, find, envs);
    InstallsIff(n, find, i);
    UpdateAllKeepsSync(Opened(n, find), only, entries, envs, |entries|);
    assert entries[..|entries|] == entries && envs[..|envs|] == envs;
    PerformConcat(n, Opening(n, find).effects, UpdateAll(only, entries, envs));
  }

  // ---- as the node performs it ----

  datatype Event = Restarted(worked: bool) | Probed(probe: Probe) | RollingBack

  /** Every rollback comes right after a successful restart and a definitively unhealthy probe. */
  predicate RollbackEarned(log: seq<Event>) {
    forall i :: 0 <= i < |log| && log[i].RollingBack? ==>
      i >= 2 && log[i - 1] == Probed(Unhealthy) && log[i - 2] == Restarted(true)
  }

  method UpdateOne(ops: LiveOps, entry: LockEntry, env: UpdateEnv) returns (updated: bool, log: seq<Event>)
    requires ops.Valid()
    modifies ops
    ensures ops.Valid() && ops.trail == old(ops.trail) + UpdateRun(entry, env).effects
    ensures updated == UpdateRun(entry, env).ok
    ensures RollbackEarned(log) && (RollingBack in log <==> Renews(entry, env) && Sick(env))
  {
    log := [];
    if env.resolved.None? { return false, log; }
    var r := env.resolved.value;
    if CompareCommits(entry.commit, r.commit) != Changed { return false, log; }
    ghost var files := Written(r, map[], env.install);
    TryInstall(ops, r, env.install);
    if !env.install.Done? { return false, log; }
    ghost var lock := if env.lockOk then [PutLock(Renewed(entry, r))] else [];
    if env.lockOk { ops.Act(PutLock(Renewed(entry, r))); }
    Assoc(old(ops.trail), files, lock);
    ghost var up := if env.restart then UpEffects(env.up, entry.name) else [];
    assert ops.trail == old(ops.trail) + (files + lock);
    Assoc(old(ops.trail), files + lock, up);
    Assoc(old(ops.trail), files + lock + up, RollbackRun(entry, env.back));
    if env.restart {
      var worked := ops.Compose(env.up, Up(entry.name));
      log := log + [Restarted(worked)];
      if worked {
        log := log + [Probed(env.probe)];
        if env.probe == Unhealthy {
          log := log + [RollingBack];
          Rollback(ops, entry, env.back);
          return false, log;
        }
      }
    }
    return true, log;
  }

  /** InstallFromManifest without overrides; whether the config resolves is part of the answer here. */
  method TryInstall(ops: LiveOps, r: Resolved, t: Try)
    requires ops.Valid()
    modifies ops
    ensures ops.Valid() && ops.trail == old(ops.trail) + Written(r, map[], t)
  {
    match t {
      case Done(_, _) => ops.Act(PutFiles(r.name, r.commit, RecipeOf(r, map[], t)));
      case Broken => ops.Act(PutFiles(r.name, r.commit, NO_VARS));
      case Refused =>
    }
  }

  method Rollback(ops: LiveOps, prev: LockEntry, b: BackEnv)
    requires ops.Valid()
    modifies ops
    ensures ops.Valid() && ops.trail == old(ops.trail) + RollbackRun(prev, b)
  {
    if b.resolved.None? { return; }
    var r := b.resolved.value;
    TryInstall(ops, r, b.install);
    if !b.install.Done? { return; }
    if b.lockOk { ops.Act(PutLock(prev)); }
    var _ := ops.Compose(b.up, Up(prev.name));
  }

  ghost predicate AnyAsked(only: string, entries: seq<LockEntry>, envs: seq<UpdateEnv>)
    requires |entries| == |envs|
  {
    exists i :: 0 <= i < |entries| && Asked(only, entries[i], envs[i])
  }

  /** The loop over the entries as first read. */
  method UpdateEach(ops: LiveOps, only: string, entries: seq<LockEntry>, envs: seq<UpdateEnv>) returns (checked: nat,
                    updated: nat)
    requires ops.Valid() && |envs| == |entries|
    modifies ops
    ensures ops.Valid() && ops.trail == old(ops.trail) + UpdateAll(only, entries, envs)
    ensures updated <= checked <= |entries| && (checked > 0 <==> AnyAsked(only, entries, envs))
  {
    checked, updated := 0, 0;
    for i := 0 to |entries|
      invariant ops.Valid() && ops.trail == old(ops.trail) + UpdateAll(only, entries[..i], envs[..i])
      invariant updated <= checked <= i
      invariant checked == 0 <==> forall j :: 0 <= j < i ==> !Asked(only, entries[j], envs[j])
    {
      assert entries[..i + 1][..i] == entries[..i] && envs[..i + 1][..i] == envs[..i];
      if (only == "" || entries[i].name == only) && envs[i].managed {
        checked := checked + 1;
        Assoc(old(ops.trail), UpdateAll(only, entries[..i], envs[..i]), UpdateRun(entries[i], envs[i]).effects);
        var did, _ := UpdateOne(ops, entries[i], envs[i]);
        if did { updated := updated + 1; }
      }
    }
    assert entries[..|entries|] == entries && envs[..|envs|] == envs;
  }

  /** The whole command: the lockfile is read once, before anything changes. */
  method UpdateModules(ops: LiveOps, only: string, loadOk: bool, find: Finding, envs: seq<UpdateEnv>)
    returns (ok: bool, checked: nat, updated: nat)
    requires ops.Valid() && |envs| == |ops.node.lock|
    modifies ops
    ensures ops.Valid() && updated <= checked <= |envs|
    ensures ops.trail == old(ops.trail) +
              if loadOk && old(ops.node).lock != [] then UpdateEffects(old(ops.node), only, find, envs) else []
    ensures ok <==>
              && loadOk && (old(ops.node).lock == [] || Opening(old(ops.node), find).ok)
              && (old(ops.node).lock == [] || only == "" || AnyAsked(only, old(ops.node).lock, envs))
  {
    var entries := ops.node.lock;
    if !loadOk { return false, 0, 0; }
    if entries == [] { return true, 0, 0; }
    ghost var open := Opening(ops.node, find).effects;
    var found := ops.FindOrCreate(find);
    if !found {
      assert open + [] == open;
      return false, 0, 0;
    }
    Assoc(old(ops.trail), open, UpdateAll(only, entries, envs));
    checked, updated := UpdateEach(ops, only, entries, envs);
    ok := !(only != "" && checked == 0);
  }

  // ---- an update against the declared assignment ----

  lemma {:induction false} UpdatedKey(v: View, entry: LockEntry, env: UpdateEnv)
    requires Stable(entry, env) && v.lock == Some(entry) && v.service.Some? && UpdateRun(entry, env).ok && env.lockOk
    ensures var w := ViewFold(v, UpdateRun(entry, env).effects);
            w.service == v.service && w.lock == Some(Renewed(entry, env.resolved.value))
  {
    var r := env.resolved.value;
    var files := Written(r, map[], env.install);
    var lock := [PutLock(Renewed(entry, r))];
    var up := if env.restart then UpEffects(env.up, entry.name) else [];
    FoldParts(v, files, lock, up, []);
    ForwardView(v, entry, r, env);
  }

  /**
   An update loses the assigned config from the lockfile: a module that matched its assignment drifts
   from it after a successful update exactly when the assignment has a config.
   */
  lemma {:induction false} UpdateDriftsIff(n: Node, entry: LockEntry, env: UpdateEnv, w: Want)
    requires Sound(n) && n.manifest.Some? && ServiceOf(n, entry.name).Some? && Lookup(n.lock, entry.name) == Some(entry)
    requires Stable(entry, env) && UpdateRun(entry, env).ok && env.lockOk && entry.source != ""
    requires w.key == entry.name && !Changes(Some(w), Get(ActualOf(Listed(n)), w.key))
    ensures var n' := PerformAll(n, UpdateRun(entry, env).effects);
            Changes(Some(w), Get(ActualOf(Listed(n')), w.key)) <==> w.config != map[]
  {
    var effects := UpdateRun(entry, env).effects;
    var n' := PerformAll(n, effects);
    UpdateAbout(entry, env);
    ViewEffects(n, effects, entry.name);
    UpdatedKey(ViewOf(n, entry.name), entry, env);
    SoundEffects(n, effects);
    IndexIsReported(n, w.key);
    IndexIsReported(n', w.key);
  }
}
