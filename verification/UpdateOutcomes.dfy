/** What `citadel module update` leaves of a module, told from the answers it gets. */
module UpdateOutcomes {
  import opened Prelude
  import opened ModuleConfig
  import opened Node
  import opened ModuleOps
  import opened UpdateOps
  import opened ModuleTheorems
  import opened ModuleOutcomes
  import opened ModuleUpdate

  /**
   An update succeeds exactly if the module resolves to another commit than the locked one, both known, the
   install is done, and it does not come up unhealthy from its restart.
   */
  lemma {:induction false} UpdateOkIff(entry: LockEntry, env: UpdateEnv)
    ensures UpdateRun(entry, env).ok <==>
              && env.resolved.Some? && entry.commit != "" && env.resolved.value.commit != ""
              && entry.commit != env.resolved.value.commit && env.install.Done?
              && !(env.restart && env.up.Worked? && env.probe == Unhealthy)
    ensures UpdateRun(entry, env).effects == [] <==>
              || env.resolved.None? || entry.commit == "" || env.resolved.value.commit in {"", entry.commit}
              || env.install.Refused?
  {
  }

  lemma {:induction false} OkView(v: View, entry: LockEntry, env: UpdateEnv)
    requires UpdateRun(entry, env).ok
    ensures ViewFold(v, UpdateRun(entry, env).effects) ==
            View(v.service, if env.lockOk then Some(Renewed(entry, env.resolved.value)) else v.lock,
                 Some(Materialised(v.files, env.resolved.value.commit,
                                   RecipeOf(env.resolved.value, map[], env.install))),
                 v.running || (env.restart && Took(env.up)))
  {
    var r := env.resolved.value;
    var files := Written(r, map[], env.install);
    var lock := if env.lockOk then [PutLock(Renewed(entry, r))] else [];
    var up := if env.restart then UpEffects(env.up, entry.name) else [];
    FoldParts(v, files, lock, up, []);
    ForwardView(v, entry, r, env);
    assert files + lock + up + [] == files + lock + up;
  }

  /**
   A module that has moved upstream is at the new commit after a successful update, in its files and, if
   that could be written, in the lockfile, with the source and ref it had; its entry in the manifest is as
   it was, and it is up if it was or was restarted.
   */
  lemma {:induction false} UpdateLeaves(n: Node, entry: LockEntry, env: UpdateEnv)
    requires n.manifest.Some? && Stable(entry, env) && UpdateRun(entry, env).ok
    ensures var n', commit := PerformAll(n, UpdateRun(entry, env).effects), env.resolved.value.commit;
            && entry.name in n'.files && n'.files[entry.name].commit == commit
            && Lookup(n'.lock, entry.name) ==
               (if env.lockOk then Some(LockEntry(entry.name, entry.source, entry.ref, commit, map[]))
                else Lookup(n.lock, entry.name))
            && ServiceOf(n', entry.name) == ServiceOf(n, entry.name)
            && (entry.name in n'.up <==>
                  entry.name in n.up || (env.restart && (env.up.Worked? || env.up.took)))
  {
    UpdateAbout(entry, env);
    ViewEffects(n, UpdateRun(entry, env).effects, entry.name);
    OkView(ViewOf(n, entry.name), entry, env);
  }

  lemma {:induction false} BackView(v: View, entry: LockEntry, env: UpdateEnv)
    requires Renews(entry, env) && Sick(env)
    ensures var w := View(v.service, if env.lockOk then Some(Renewed(entry, env.resolved.value)) else v.lock,
                          Some(Materialised(v.files, env.resolved.value.commit,
                                            RecipeOf(env.resolved.value, map[], env.install))), true);
            ViewFold(v, UpdateRun(entry, env).effects) == ViewFold(w, RollbackRun(entry, env.back))
  {
    var r := env.resolved.value;
    var files := Written(r, map[], env.install);
    var lock := if env.lockOk then [PutLock(Renewed(entry, r))] else [];
    var up := UpEffects(env.up, entry.name);
    FoldParts(v, files, lock, up, RollbackRun(entry, env.back));
    ForwardView(v, entry, r, env);
  }

  /**
   A module that comes up unhealthy is put back: if the previous commit resolves, installs, and can be
   recorded, then files and lock are what they were before the update, and the module is up.
   */
  lemma {:induction false} RollbackRestores(n: Node, entry: LockEntry, env: UpdateEnv)
    requires n.manifest.Some? && Stable(entry, env) && Renews(entry, env) && Sick(env)
    requires env.back.resolved.Some? && env.back.install.Done? && env.back.lockOk
    ensures var n' := PerformAll(n, UpdateRun(entry, env).effects);
            && entry.name in n'.files && n'.files[entry.name].commit == entry.commit
            && Lookup(n'.lock, entry.name) == Some(entry) && entry.name in n'.up
  {
    var v := ViewOf(n, entry.name);
    UpdateAbout(entry, env);
    ViewEffects(n, UpdateRun(entry, env).effects, entry.name);
    BackView(v, entry, env);
    RollbackView(View(v.service, if env.lockOk then Some(Renewed(entry, env.resolved.value)) else v.lock,
                      Some(Materialised(v.files, env.resolved.value.commit,
                                        RecipeOf(env.resolved.value, map[], env.install))), true), entry, env.back);
  }

  /** The loop leaves alone every module it was not asked for, or cannot manage. */
  lemma {:induction false} UpdateAllSpares(n: Node, only: string, entries: seq<LockEntry>, envs: seq<UpdateEnv>,
                                           name: string)
    requires |entries| == |envs| && forall i :: 0 <= i < |entries| ==> Stable(entries[i], envs[i])
    requires forall i :: 0 <= i < |entries| && entries[i].name == name ==>
               !envs[i].managed || (only != "" && only != name)
    ensures ViewOf(PerformAll(n, UpdateAll(only, entries, envs)), name) == ViewOf(n, name)
    decreases |entries|
  {
    if entries != [] {
      var k := |entries| - 1;
      var before := UpdateAll(only, entries[..k], envs[..k]);
      UpdateAllSpares(n, only, entries[..k], envs[..k], name);
      if Picked(only, entries[k], envs[k]) {
        PerformConcat(n, before, UpdateRun(entries[k], envs[k]).effects);
        UpdateFrame(PerformAll(n, before), entries[k], envs[k], name);
      } else {
        assert before + [] == before;
      }
    }
  }

  // ---- the env file ----

  /** What a variable of the module is after a successful update: nothing is assigned any more. */
  lemma {:induction false} UpdatedValue(n: Node, entry: LockEntry, env: UpdateEnv, v: ConfigVar)
    requires n.manifest.Some? && Stable(entry, env) && UpdateRun(entry, env).ok
    requires Declares(env.resolved.value.vars, v, v.name)
    ensures var n' := PerformAll(n, UpdateRun(entry, env).effects);
            var e := EnvOf(FilesOf(n.files, entry.name));
            var was := Persisted(e, env.install.readOk, v.name);
            && entry.name in n'.files
            && var e' := n'.files[entry.name].env;
               if v.generate then
                 if was.Some? then v.name in e' && e'[v.name] == was.value
                 else v.name in env.install.mint ==> v.name in e' && e'[v.name] == env.install.mint[v.name]
               else v.default != "" ==> v.name in e' && e'[v.name] == v.default
  {
    var rc, e := RecipeOf(env.resolved.value, map[], env.install), EnvOf(FilesOf(n.files, entry.name));
    UpdateAbout(entry, env);
    ViewEffects(n, UpdateRun(entry, env).effects, entry.name);
    OkView(ViewOf(n, entry.name), entry, env);
    FilledIs(rc, e, v);
    FilledNothing(rc, e);
  }

  /**
   An update forgets what was assigned to a variable: it keeps its value exactly if that is its default, or
   there is no variable of the module to write an env file for.
   */
  lemma {:induction false} AssignedKeptIff(n: Node, entry: LockEntry, env: UpdateEnv, v: ConfigVar)
    requires n.manifest.Some? && Stable(entry, env) && UpdateRun(entry, env).ok && !v.generate
    requires Declares(env.resolved.value.vars, v, v.name) && entry.name in n.files && v.name in n.files[entry.name].env
    requires Resolves(n, env.resolved.value, map[], env.install)
    ensures var n', x := PerformAll(n, UpdateRun(entry, env).effects), n.files[entry.name].env[v.name];
            && entry.name in n'.files
            && (v.name in n'.files[entry.name].env && n'.files[entry.name].env[v.name] == x <==>
                if v.default != "" then v.default == x
                else forall w :: w in env.resolved.value.vars ==> !w.generate && w.default == "")
  {
    var rc, e := RecipeOf(env.resolved.value, map[], env.install), n.files[entry.name].env;
    UpdateAbout(entry, env);
    ViewEffects(n, UpdateRun(entry, env).effects, entry.name);
    OkView(ViewOf(n, entry.name), entry, env);
    FilledIs(rc, e, v);
    FilledNothing(rc, e);
    forall w | w in rc.vars ensures ValueOf(rc, e, w).None? <==> !w.generate && w.default == "" {
      var i :| 0 <= i < |rc.vars| && rc.vars[i] == w;
      assert !Lacks(rc, e, w);
    }
  }

  /** A write that leaves a generated value of a module alone. */
  ghost predicate KeepsSecret(r: Resolved, t: Try, k: string) {
    t.Done? ==> t.readOk && exists v :: Declares(r.vars, v, k) && v.generate
  }

  lemma {:induction false} WriteKeeps(was: Files, r: Resolved, t: Try, k: string)
    requires KeepsSecret(r, t, k) && k in was.env && was.env[k] != ""
    ensures var env := Materialised(Some(was), r.commit, WrittenBy(r, t)).env;
            k in env && env[k] == was.env[k]
  {
    if t.Done? {
      var v :| Declares(r.vars, v, k) && v.generate;
      FilledIs(RecipeOf(r, map[], t), was.env, v);
    }
  }

  /** An effect of an update on a module that still generates `k`. */
  predicate Careful(e: Effect, entry: LockEntry, env: UpdateEnv) {
    match e
    case PutLock(_) => true
    case Up(_) => true
    case PutFiles(_, commit, rc) =>
      || (env.resolved.Some? && e == PutFiles(entry.name, env.resolved.value.commit,
                                              WrittenBy(env.resolved.value, env.install)))
      || (env.back.resolved.Some? && e == PutFiles(entry.name, env.back.resolved.value.commit,
                                                   WrittenBy(env.back.resolved.value, env.back.install)))
    case _ => false
  }

  lemma {:induction false} WrittenCareful(r: Resolved, t: Try)
    ensures forall e :: e in Written(r, map[], t) ==> e == PutFiles(r.name, r.commit, WrittenBy(r, t))
  {
  }

  lemma {:induction false} AllCareful(entry: LockEntry, env: UpdateEnv)
    requires Stable(entry, env)
    ensures forall e :: e in UpdateRun(entry, env).effects ==> Careful(e, entry, env)
  {
    if env.resolved.Some? { WrittenCareful(env.resolved.value, env.install); }
    if env.back.resolved.Some? { WrittenCareful(env.back.resolved.value, env.back.install); }
  }

  lemma {:induction false} CarefulKeeps(n: Node, effects: seq<Effect>, entry: LockEntry, env: UpdateEnv, k: string)
    requires forall e :: e in effects ==> Careful(e, entry, env)
    requires env.resolved.Some? ==> KeepsSecret(env.resolved.value, env.install, k)
    requires env.back.resolved.Some? ==> KeepsSecret(env.back.resolved.value, env.back.install, k)
    requires Persisted(EnvOf(FilesOf(n.files, entry.name)), true, k).Some?
    ensures Persisted(EnvOf(FilesOf(PerformAll(n, effects).files, entry.name)), true, k) ==
            Persisted(EnvOf(FilesOf(n.files, entry.name)), true, k)
    decreases |effects|
  {
    if effects != [] {
      var e := effects[0];
      assert e in effects && forall x :: x in effects[1..] ==> x in effects;
      if e.PutFiles? {
        var was := n.files[entry.name];
        if env.resolved.Some? && e == PutFiles(entry.name, env.resolved.value.commit,
                                               WrittenBy(env.resolved.value, env.install)) {
          WriteKeeps(was, env.resolved.value, env.install, k);
        } else {
          WriteKeeps(was, env.back.resolved.value, env.back.install, k);
        }
      }
      CarefulKeeps(Perform(n, e), effects[1..], entry, env, k);
    }
  }

  /**
   No update and no rollback rotates a secret: a generated value is in the env file at every cut of either,
   as long as the versions installed still generate it and the env file can be read.
   */
  lemma {:induction false} SecretsOutliveUpdate(n: Node, entry: LockEntry, env: UpdateEnv, k: string, cut: nat)
    requires Stable(entry, env) && cut <= |UpdateRun(entry, env).effects|
    requires env.resolved.Some? ==> KeepsSecret(env.resolved.value, env.install, k)
    requires env.back.resolved.Some? ==> KeepsSecret(env.back.resolved.value, env.back.install, k)
    requires entry.name in n.files && k in n.files[entry.name].env && n.files[entry.name].env[k] != ""
    ensures var n' := PerformAll(n, UpdateRun(entry, env).effects[..cut]);
            && entry.name in n'.files && k in n'.files[entry.name].env
            && n'.files[entry.name].env[k] == n.files[entry.name].env[k]
  {
    var effects := UpdateRun(entry, env).effects;
    AllCareful(entry, env);
    assert forall e :: e in effects[..cut] ==> e in effects;
    CarefulKeeps(n, effects[..cut], entry, env, k);
  }
}
