/** What is up, marked and listed once a stop, start, run or boot is over. */
module ModuleOutcomes {
  import opened Prelude
  import opened Manifest
  import opened ModuleConfig
  import opened Node
  import opened ModuleOps
  import opened ModuleTheorems

  predicate Took(c: Compose) {
    c.Worked? || c.took
  }

  lemma {:induction false} DownView(v: View, c: Compose, name: string)
    ensures ViewFold(v, DownEffects(c, name)) == v.(running := v.running && !Took(c))
  {
    FoldMaybe(v, DownEffects(c, name));
  }

  lemma {:induction false} UpView(v: View, c: Compose, name: string)
    ensures ViewFold(v, UpEffects(c, name)) == v.(running := v.running || Took(c))
  {
    FoldMaybe(v, UpEffects(c, name));
  }

  // ---- stop ----

  predicate Works(io: Io) {
    io.readOk && io.writeOk
  }

  /**
   A stop succeeds exactly if the service is there, the marker can be written, and its compose file, if there
   is one, brings it down. Then it is marked, and up only if it was and there is none.
   */
  lemma {:induction false} StopLeaves(n: Node, name: string, env: StopEnv)
    ensures StopRun(n, name, env).ok <==>
              && ServiceOf(n, name).Some? && env.readOk && Works(env.io)
              && (env.compose.Some? ==> env.compose.value.Worked?)
    ensures StopRun(n, name, env).ok ==>
              var n' := PerformAll(n, StopRun(n, name, env).effects);
              Marked(n', name) && (name in n'.up <==> name in n.up && env.compose.None?)
  {
    if StopRun(n, name, env).ok {
      var v, effects, mark := ViewOf(n, name), StopRun(n, name, env).effects, [Edit(SetStatus(name, STOPPED))];
      assert effects == mark + effects[1..];
      StoppedIsMarker();
      StopAbout(n, name, env);
      ViewEffects(n, effects, name);
      ViewConcat(v, mark, effects[1..]);
      FoldOne(v, mark[0]);
      if env.compose.Some? { DownView(ViewFold(v, mark), env.compose.value, name); }
    }
  }

  /**
   A stop from the control center succeeds exactly if the service is there, the marker can be written, and
   the compose down works. Then it is marked and down.
   */
  lemma {:induction false} CcStopLeaves(n: Node, name: string, env: CcStopEnv)
    ensures CcStopRun(n, name, env).ok <==>
              ServiceOf(n, name).Some? && env.readOk && Works(env.io) && env.compose.Worked?
    ensures CcStopRun(n, name, env).ok ==>
              var n' := PerformAll(n, CcStopRun(n, name, env).effects);
              Marked(n', name) && name !in n'.up
  {
    if CcStopRun(n, name, env).ok {
      var v, mark := ViewOf(n, name), [Edit(SetStatus(name, STOPPED))];
      var down, legacy := DownEffects(env.compose, name), DownEffects(env.legacy, name);
      StoppedIsMarker();
      CcStopAbout(n, name, env);
      ViewEffects(n, CcStopRun(n, name, env).effects, name);
      ViewConcat(v, mark + down, legacy);
      ViewConcat(v, mark, down);
      FoldOne(v, mark[0]);
      DownView(ViewFold(v, mark), env.compose, name);
      DownView(ViewFold(v, mark + down), env.legacy, name);
    }
  }

  // ---- start and run ----

  /**
   A start succeeds exactly if the service is there, its marker can be cleared, and its compose file is
   there and brings it up. Then it is unmarked and up.
   */
  lemma {:induction false} StartLeaves(n: Node, name: string, env: StartEnv)
    ensures StartRun(n, name, env).ok <==>
              ServiceOf(n, name).Some? && env.readOk && Works(env.io) && env.hasCompose && env.compose.Worked?
    ensures StartRun(n, name, env).ok ==>
              var n' := PerformAll(n, StartRun(n, name, env).effects);
              ServiceOf(n', name) == Some(ServiceOf(n, name).value.(desiredStatus := "")) && name in n'.up
  {
    if StartRun(n, name, env).ok {
      var v, clear, up := ViewOf(n, name), [Edit(SetStatus(name, ""))], [Up(name)];
      assert StartRun(n, name, env).effects == clear + up;
      StartAbout(n, name, env);
      ViewEffects(n, clear + up, name);
      ViewConcat(v, clear, up);
      FoldOne(v, clear[0]);
      FoldOne(ViewFold(v, clear), up[0]);
    }
  }

  function Unmarked(s: Service, io: Io): Service {
    if Works(io) then s.(desiredStatus := "") else s
  }

  /** The control center's start goes ahead. */
  predicate CcStarts(n: Node, name: string, env: CcStartEnv) {
    ServiceOf(n, name).Some? && env.readOk && !env.refused
  }

  /**
   A start from the control center that goes ahead unmarks the service if it can, takes the legacy container
   away, and brings the stack up; it succeeds exactly if that worked. One that does not changes nothing.
   */
  lemma {:induction false} CcStartLeaves(n: Node, name: string, env: CcStartEnv)
    ensures CcStartRun(n, name, env).ok <==> CcStarts(n, name, env) && env.compose.Worked?
    ensures var n' := PerformAll(n, CcStartRun(n, name, env).effects);
            if CcStarts(n, name, env) then
              && ServiceOf(n', name) == Some(Unmarked(ServiceOf(n, name).value, env.io))
              && (name in n'.up <==> Took(env.compose) || (name in n.up && !Took(env.legacy)))
            else n' == n
  {
    if CcStarts(n, name, env) {
      var v, clear := ViewOf(n, name), Optional(StatusEdit(n, name, "", env.io));
      var down, up := DownEffects(env.legacy, name), UpEffects(env.compose, name);
      CcStartAbout(n, name, env);
      ViewEffects(n, CcStartRun(n, name, env).effects, name);
      ViewConcat(v, clear + down, up);
      ViewConcat(v, clear, down);
      FoldMaybe(v, clear);
      DownView(ViewFold(v, clear), env.legacy, name);
      UpView(ViewFold(v, clear + down), env.compose, name);
    }
  }

  /** What a run finds or makes of the service. */
  function Runnable(n: Node, name: string): Service {
    if ServiceOf(n, name).Some? then ServiceOf(n, name).value
    else Service(name, "", "services/" + name + ".yml", 0, "")
  }

  lemma {:induction false} BringLeaves(v: View, name: string, io: Io, compose: Compose)
    requires v.service.Some?
    ensures ViewFold(v, Bringing(name, io, compose)) ==
            v.(service := Some(Unmarked(v.service.value, io)), running := v.running || Took(compose))
  {
    var clear := if io.readOk && io.writeOk then [Edit(SetStatus(name, ""))] else [];
    ViewConcat(v, clear, UpEffects(compose, name));
    FoldMaybe(v, clear);
    UpView(ViewFold(v, clear), compose, name);
  }

  lemma {:induction false} KnownView(n: Node, name: string, env: RunEnv)
    requires n.manifest.Some? && env.composeFile.Some? && (ServiceOf(n, name).Some? || env.addOk)
    ensures var v := ViewOf(n, name);
            ViewFold(v, KnownRun(n, name, env).effects) ==
            View(Some(Unmarked(Runnable(n, name), env.io)), v.lock,
                 if name in n.files then v.files else Some(Files(env.composeFile.value, map[])),
                 v.running || Took(env.compose))
  {
    var v := ViewOf(n, name);
    var files := if name in n.files then [] else [PutFiles(name, env.composeFile.value, NO_VARS)];
    var add := if ServiceOf(n, name).Some? then [] else [Edit(Add(name, []))];
    ViewConcat(v, files + add, Bringing(name, env.io, env.compose));
    ViewConcat(v, files, add);
    FoldMaybe(v, files);
    FoldMaybe(ViewFold(v, files), add);
    BringLeaves(ViewFold(v, files + add), name, env.io, env.compose);
  }

  /**
   A run succeeds exactly if there is a manifest, found or new, the service is embedded or in it, its compose
   file is there or can be written, it can be registered if need be, and it comes up. Then it is in the
   manifest, unmarked if that could be written, with its compose file, as it was or written, and up.
   */
  lemma {:induction false} RunLeaves(n: Node, name: string, env: RunEnv)
    ensures SingleRun(n, name, env).ok <==>
              && (Reads(n, env.find) || (env.find.wrote && env.find.pointed))
              && env.composeFile.Some? && env.compose.Worked?
              && (ServiceOf(Opened(n, env.find), name).Some? || (env.embedded && env.addOk))
    ensures SingleRun(n, name, env).ok ==>
              var n0, n' := Opened(n, env.find), PerformAll(n, SingleRun(n, name, env).effects);
              && ServiceOf(n', name) == Some(Unmarked(Runnable(n0, name), env.io)) && name in n'.up
              && FilesOf(n'.files, name) ==
                 if name in n0.files then FilesOf(n0.files, name) else Some(Files(env.composeFile.value, map[]))
  {
    var open, n0 := Opening(n, env.find), Opened(n, env.find);
    if open.ok { OpeningWhole(n, env.find); }
    if SingleRun(n, name, env).ok {
      PerformConcat(n, open.effects, KnownRun(n0, name, env).effects);
      KnownAbout(n0, name, env);
      ViewEffects(n0, KnownRun(n0, name, env).effects, name);
      KnownView(n0, name, env);
    }
  }

  // ---- install and uninstall ----

  /**
   An uninstall succeeds exactly if there is nothing to uninstall, as far as it can read, or the stack comes
   down, if it has a compose file, and the entry can be taken out.
   */
  lemma {:induction false} UninstallOkIff(n: Node, name: string, env: UninstallEnv)
    ensures UninstallRun(n, name, env).ok <==>
              || ServiceOf(n, name).None? || !env.readOk
              || (Works(env.io) &&
                  (ServiceOf(n, name).value.composeFile != "" && env.compose.Some? ==> env.compose.value.Worked?))
  {
  }

  /**
   An install succeeds exactly if the source parses and resolves, there is a manifest, found or new, the
   signature verifies, an old install makes way, the new one is done with every variable it needs, it can be
   registered, and it comes up. Neither the lockfile nor the marker has a say.
   */
  lemma {:induction false} InstallOkIff(n: Node, m: Assignment, env: InstallEnv)
    ensures InstallRun(n, m, env).ok <==>
              && Parses(m, env) && env.resolved.Some? && env.verifyOk
              && (Reads(n, env.find) || (env.find.wrote && env.find.pointed))
              && var r, n0 := env.resolved.value, Opened(n, env.find);
                 var there := ServiceOf(n0, r.name).Some?;
                 && (there ==> UninstallRun(n0, r.name, env.uninstall).ok)
                 && env.install.Done?
                 && !Refuses(RecipeOf(r, Overrides(n0, m, r, env.carryOk), env.install), EnvOf(FilesLeft(n0, r, env)))
                 && env.addIo.readOk && (env.addIo.writeOk || (there && !env.uninstall.readOk))
                 && env.compose.Worked?
  {
    if Parses(m, env) && env.resolved.Some? && Opening(n, env.find).ok {
      var r, n0 := env.resolved.value, Opened(n, env.find);
      OpeningWhole(n, env.find);
      if ServiceOf(n0, r.name).Some? && UninstallRun(n0, r.name, env.uninstall).ok {
        UninstallLeaves(n0, r.name, env.uninstall);
        UninstallFiles(n0, r.name, env.uninstall);
      }
    }
  }

  lemma {:induction false} UninstallFiles(n: Node, name: string, env: UninstallEnv)
    requires UninstallRun(n, name, env).ok && ServiceOf(n, name).Some?
    ensures FilesOf(PerformAll(n, UninstallRun(n, name, env).effects).files, name) ==
            if env.readOk && env.filesOk then None else FilesOf(n.files, name)
  {
    UninstallAbout(n, name, env);
    ViewEffects(n, UninstallRun(n, name, env).effects, name);
    UninstallView(n, name, env, ViewOf(n, name));
  }

  // ---- boot ----

  /** The boot gets as far as service `i`. */
  predicate Reaches(services: seq<Service>, outcomes: seq<Compose>, giveUp: bool, i: nat)
    requires i <= |services| == |outcomes|
  {
    giveUp ==> forall j :: 0 <= j < i ==> StartDisabled(services[j]) || outcomes[j].Worked?
  }

  /** Exactly the unmarked services the boot gets to are brought up, as far as docker does it. */
  lemma {:induction false} BootBrings(services: seq<Service>, outcomes: seq<Compose>, giveUp: bool, i: nat)
    requires i < |services| == |outcomes| && UniqueNames(services)
    ensures Up(services[i].name) in BootEffects(services, outcomes, giveUp) <==>
            !StartDisabled(services[i]) && Took(outcomes[i]) && Reaches(services, outcomes, giveUp, i)
    decreases |services|
  {
    var rest, outs := services[1..], outcomes[1..];
    BootOnlyEnabled(rest, outs, giveUp);
    if i == 0 {
      forall j | 0 <= j < |rest| ensures rest[j].name != services[0].name { assert services[j + 1] == rest[j]; }
    } else {
      BootBrings(rest, outs, giveUp, i - 1);
      assert services[0].name != services[i].name;
      ReachesTail(services, outcomes, giveUp, i);
    }
  }

  lemma {:induction false} ReachesTail(services: seq<Service>, outcomes: seq<Compose>, giveUp: bool, i: nat)
    requires 0 < i <= |services| == |outcomes|
    ensures Reaches(services, outcomes, giveUp, i) <==>
            && (giveUp ==> StartDisabled(services[0]) || outcomes[0].Worked?)
            && Reaches(services[1..], outcomes[1..], giveUp, i - 1)
  {
    var rest, outs := services[1..], outcomes[1..];
    if Reaches(services, outcomes, giveUp, i) && giveUp {
      forall j | 0 <= j < i - 1 ensures StartDisabled(rest[j]) || outs[j].Worked? {
        assert StartDisabled(services[j + 1]) || outcomes[j + 1].Worked?;
      }
    }
    if giveUp && Reaches(rest, outs, giveUp, i - 1) {
      forall j | 1 <= j < i ensures StartDisabled(services[j]) || outcomes[j].Worked? {
        assert services[j] == rest[j - 1] && outcomes[j] == outs[j - 1];
      }
    }
  }

  lemma {:induction false} UpsLeave(n: Node, effects: seq<Effect>)
    requires forall e :: e in effects ==> e.Up?
    ensures var n' := PerformAll(n, effects);
            n' == n.(up := n'.up) && forall x :: x in n'.up <==> x in n.up || Up(x) in effects
    decreases |effects|
  {
    if effects != [] {
      assert effects[0] in effects && forall e :: e in effects[1..] ==> e in effects;
      UpsLeave(Perform(n, effects[0]), effects[1..]);
      assert effects == [effects[0]] + effects[1..];
    }
  }

  /** After a boot a service is up exactly if it was, or is unmarked, was reached and could be brought up. */
  lemma {:induction false} BootLeaves(n: Node, outcomes: seq<Compose>, giveUp: bool, i: nat)
    requires Sound(n) && n.manifest.Some? && i < |n.manifest.value.services| == |outcomes|
    ensures var services := n.manifest.value.services;
            var n' := PerformAll(n, BootEffects(services, outcomes, giveUp));
            && n' == n.(up := n'.up)
            && (services[i].name in n'.up <==>
                  services[i].name in n.up ||
                  (!StartDisabled(services[i]) && Took(outcomes[i]) && Reaches(services, outcomes, giveUp, i)))
  {
    var services := n.manifest.value.services;
    BootOnlyEnabled(services, outcomes, giveUp);
    BootBrings(services, outcomes, giveUp, i);
    UpsLeave(n, BootEffects(services, outcomes, giveUp));
  }

  // ---- list ----

  /**
   A service of the manifest is listed once: with the lockfile's source, or its name for lack of one, with its
   ref, commit and config, and as running exactly if it is unmarked, up, and its container was asked about.
   */
  lemma {:induction false} ListShows(n: Node, env: ListEnv, im: Installed)
    requires Sound(n) && env.readOk
    ensures im in Report(n, env) <==>
              && ServiceOf(n, im.name).Some?
              && (im.health == Running <==> !Marked(n, im.name) && im.name in n.up && im.name !in env.unseen)
              && match Lookup(if env.lockOk then n.lock else [], im.name)
                 case None => im.source == im.name && im.ref == "" && im.commit == "" && im.config == map[]
                 case Some(e) =>
                   && im.source == (if e.source == "" then im.name else e.source)
                   && im.ref == e.ref && im.commit == e.commit && im.config == e.config
  {
    var seen := Visible(n, env);
    if n.manifest.Some? {
      ListedAt(seen, im.name);
      assert ServiceOf(seen, im.name) == ServiceOf(n, im.name);
    }
  }
}
