/**
 Module operations as the node performs them: one method per operation, changing the node one write or
 container action at a time.

 `trail` logs every change in order, so the states a crash can leave are the prefixes of it. Each
 method is proved to log exactly the effects of its specification in `ModuleOps`.
 */
module LiveModuleOps {
  import opened Prelude
  import opened Manifest
  import opened ModuleConfig
  import opened Node
  import opened ModuleOps

  class LiveOps {
    var node: Node
    ghost var trail: seq<Effect>
    ghost const origin: Node

    ghost predicate Valid()
      reads this
    {
      node == PerformAll(origin, trail)
    }

    constructor (n: Node)
      ensures Valid() && node == n && trail == []
    {
      node, origin, trail := n, n, [];
    }

    /** Whatever has been logged since an earlier state is what has happened to the node since. */
    twostate lemma {:induction false} NodeSince(effects: seq<Effect>)
      requires old(Valid()) && Valid() && trail == old(trail) + effects
      ensures node == PerformAll(old(node), effects)
    {
      PerformConcat(origin, old(trail), effects);
    }

    /** One change to the node. */
    method Act(e: Effect)
      requires Valid()
      modifies this
      ensures Valid() && trail == old(trail) + [e] && node == Perform(old(node), e)
    {
      PerformConcat(origin, trail, [e]);
      node := Perform(node, e);
      trail := trail + [e];
    }

    /** A compose action on the node's containers. */
    method Compose(c: Compose, e: Effect) returns (ok: bool)
      requires Valid() && (e.Up? || e.Down?)
      modifies this
      ensures Valid() && ok == c.Worked? && node.manifest == old(node.manifest)
      ensures trail == old(trail) + if c.Worked? || c.took then [e] else []
    {
      if c.Worked? || c.took { Act(e); }
      return c.Worked?;
    }

    /** The manifest as read from its file: the first service of a name. */
    method Find(name: string) returns (s: Option<Service>)
      ensures s == ServiceOf(node, name)
    {
      if node.manifest.None? { return None; }
      var services := node.manifest.value.services;
      for i := 0 to |services|
        invariant forall j :: 0 <= j < i ==> services[j].name != name
      {
        if services[i].name == name {
          FirstIs(services, name, i);
          return Some(services[i]);
        }
      }
      return None;
    }

    method SetDesiredStatus(name: string, status: string, io: Io) returns (ok: bool)
      requires Valid()
      modifies this
      ensures Valid() && ok == StatusEdit(old(node), name, status, io).Some?
      ensures trail == old(trail) + Optional(StatusEdit(old(node), name, status, io))
      ensures node.files == old(node.files)
      ensures !ok ==> node == old(node)
    {
      if node.manifest.None? || !io.readOk { return false; }
      var found, m := SetStatusLoop(node.manifest.value, name, status);
      if !found || !io.writeOk { return false; }
      assert node.(manifest := Some(m)) == Perform(node, Edit(SetStatus(name, status)));
      Act(Edit(SetStatus(name, status)));
      return true;
    }

    method Stop(name: string, env: StopEnv) returns (ok: bool)
      requires Valid()
      modifies this
      ensures Valid() && trail == old(trail) + StopRun(old(node), name, env).effects
      ensures ok == StopRun(old(node), name, env).ok
    {
      if node.manifest.None? || !env.readOk { return false; }
      ok := SetDesiredStatus(name, STOPPED, env.io);
      if ok && env.compose.Some? {
        ok := Compose(env.compose.value, Down(name));
      }
    }

    method CcStop(name: string, env: CcStopEnv) returns (ok: bool)
      requires Valid()
      modifies this
      ensures Valid() && trail == old(trail) + CcStopRun(old(node), name, env).effects
      ensures ok == CcStopRun(old(node), name, env).ok
    {
      var s := Find(name);
      if !env.readOk || s.None? { return false; }
      ok := SetDesiredStatus(name, STOPPED, env.io);
      if !ok { return false; }
      ok := Compose(env.compose, Down(name));
      var _ := Compose(env.legacy, Down(name));
    }

    method Start(name: string, env: StartEnv) returns (ok: bool)
      requires Valid()
      modifies this
      ensures Valid() && trail == old(trail) + StartRun(old(node), name, env).effects
      ensures ok == StartRun(old(node), name, env).ok
    {
      if node.manifest.None? || !env.readOk { return false; }
      ok := SetDesiredStatus(name, "", env.io);
      if ok {
        ok := env.hasCompose;
        if ok { ok := Compose(env.compose, Up(name)); }
      }
    }

    method CcStart(name: string, env: CcStartEnv) returns (ok: bool)
      requires Valid()
      modifies this
      ensures Valid() && trail == old(trail) + CcStartRun(old(node), name, env).effects
      ensures ok == CcStartRun(old(node), name, env).ok
    {
      var s := Find(name);
      if !env.readOk || s.None? || env.refused { return false; }
      var _ := SetDesiredStatus(name, "", env.io);
      var _ := Compose(env.legacy, Down(name));
      ok := Compose(env.compose, Up(name));
    }

    method Uninstall(name: string, env: UninstallEnv) returns (ok: bool)
      requires Valid()
      modifies this
      ensures Valid() && trail == old(trail) + UninstallRun(old(node), name, env).effects
      ensures ok == UninstallRun(old(node), name, env).ok
      ensures old(node).manifest.Some? ==> node.manifest.Some?
    {
      var s := Find(name);
      if !env.readOk || s.None? { return true; }
      if s.value.composeFile != "" && env.compose.Some? {
        ok := Compose(env.compose.value, Down(name));
        if !ok {
          return;
        }
      }
      ok := env.io.readOk && env.io.writeOk;
      if ok {
        ghost var down := if s.value.composeFile != "" && env.compose.Some?
                  then DownEffects(env.compose.value, name) else [];
        assert trail == old(trail) + down;
        Assoc(old(trail), down, Dropping(name, env));
        DroppingAll(down, name, env);
        Deregister(name, env);
      }
    }

    /** Out of the manifest, then best-effort out of the lockfile and the services directory. */
    method Deregister(name: string, env: UninstallEnv)
      requires Valid() && node.manifest.Some?
      modifies this
      ensures Valid() && node.manifest.Some? && trail == old(trail) + Dropping(name, env)
    {
      var m := RemoveService(node.manifest.value, name, env.catalogTags);
      assert node.(manifest := Some(m)) == Perform(node, Edit(Remove(name, env.catalogTags)));
      Act(Edit(Remove(name, env.catalogTags)));
      if env.lockOk { Act(DropLock(name)); }
      if env.filesOk { Act(DropFiles(name)); }
    }

    /** findOrCreateManifest. */
    method FindOrCreate(f: Finding) returns (ok: bool)
      requires Valid()
      modifies this
      ensures Valid() && trail == old(trail) + Opening(old(node), f).effects && ok == Opening(old(node), f).ok
      ensures node == PerformAll(old(node), Opening(old(node), f).effects) && (ok ==> node.manifest.Some?)
    {
      if node.manifest.Some? && f.readOk { return true; }
      if !f.wrote { return false; }
      Act(EmptyHome);
      ok := f.pointed;
      if ok { Act(PointHome); }
      NodeSince(Opening(old(node), f).effects);
    }

    method Install(m: Assignment, env: InstallEnv) returns (ok: bool)
      requires Valid()
      modifies this
      ensures Valid() && trail == old(trail) + InstallRun(old(node), m, env).effects
      ensures ok == InstallRun(old(node), m, env).ok
    {
      if !Parses(m, env) || env.resolved.None? { return false; }
      ok := FindOrCreate(env.find);
      if !ok || !env.verifyOk { return false; }
      Assoc(old(trail), Opening(old(node), env.find).effects, ReplaceRun(node, m, env.resolved.value, env).effects);
      ok := Replace(m, env.resolved.value, env);
    }

    /** An update in place: generated values are read before the uninstall deletes them. */
    method Replace(m: Assignment, r: Resolved, env: InstallEnv) returns (ok: bool)
      requires Valid() && node.manifest.Some?
      modifies this
      ensures Valid() && trail == old(trail) + ReplaceRun(old(node), m, r, env).effects
      ensures ok == ReplaceRun(old(node), m, r, env).ok
    {
      var config := m.config;
      var existing := Find(r.name);
      ok := true;
      ghost var un := Outcome([], true);
      if existing.Some? {
        config := CarryGenerated(r.vars, if env.carryOk then EnvOf(FilesOf(node.files, r.name)) else map[], m.config);
        un := UninstallRun(node, r.name, env.uninstall);
        ok := Uninstall(r.name, env.uninstall);
      }
      NodeSince(un.effects);
      if ok {
        Assoc(old(trail), un.effects, FreshRun(node, m, r, config, env).effects);
        ok := InstallFresh(m, r, config, env);
      }
    }

    /** addServiceToManifestWithTags, on the file. */
    method AddToManifest(name: string, nodeTags: seq<string>, io: Io) returns (ok: bool)
      requires Valid() && node.manifest.Some?
      modifies this
      ensures Valid() && ok == (io.readOk && (ServiceOf(old(node), name).Some? || io.writeOk))
      ensures trail == old(trail) + if ok then [Edit(Add(name, nodeTags))] else []
      ensures ok ==> node.manifest.Some? && ServiceOf(node, name).Some?
    {
      if !io.readOk { return false; }
      var m := node.manifest.value;
      var present := HasServiceLoop(m, name);
      assert present == ServiceOf(node, name).Some?;
      var added := AddService(m, name, nodeTags);
      if !present && !io.writeOk { return false; }
      AddedIsThere(m, name, nodeTags);
      assert node.(manifest := Some(added)) == Perform(node, Edit(Add(name, nodeTags)));
      Act(Edit(Add(name, nodeTags)));
      return true;
    }

    /** Clear the marker, best-effort, and bring the stack up. */
    method Finishing(name: string, io: Io, compose: Compose) returns (ok: bool)
      requires Valid() && node.manifest.Some? && ServiceOf(node, name).Some?
      modifies this
      ensures Valid() && ok == compose.Worked?
      ensures trail == old(trail) + Bringing(name, io, compose)
    {
      var _ := SetDesiredStatus(name, "", io);
      ok := Compose(compose, Up(name));
    }

    /** InstallFromManifest: the config is resolved before anything is written. */
    method Materialise(r: Resolved, config: Config, t: Try) returns (ok: bool)
      requires Valid()
      modifies this
      ensures Valid() && node.manifest == old(node.manifest) && ok == (t.Done? && Resolves(old(node), r, config, t))
      ensures trail == old(trail) + if Resolves(old(node), r, config, t) then Written(r, config, t) else []
    {
      match t {
        case Refused => return false;
        case Broken =>
          Act(PutFiles(r.name, r.commit, NO_VARS));
          return false;
        case Done(_, _) =>
          var values := ResolveConfig(RecipeOf(r, config, t), EnvOf(FilesOf(node.files, r.name)));
          if values.None? { return false; }
          Act(PutFiles(r.name, r.commit, RecipeOf(r, config, t)));
          return true;
      }
    }

    method InstallFresh(m: Assignment, r: Resolved, config: Config, env: InstallEnv) returns (ok: bool)
      requires Valid() && node.manifest.Some?
      modifies this
      ensures Valid() && trail == old(trail) + FreshRun(old(node), m, r, config, env).effects
      ensures ok == FreshRun(old(node), m, r, config, env).ok
    {
      ghost var files := Written(r, config, env.install);
      ghost var add := [Edit(Add(r.name, r.nodeTags))];
      ok := Materialise(r, config, env.install);
      if !ok { return; }
      assert trail == old(trail) + files;
      ok := AddToManifest(r.name, r.nodeTags, env.addIo);
      if ok {
        Assoc(old(trail), files, add);
        Assoc(old(trail), files + add, Finish(m, r, env));
        ok := Conclude(m, r, env);
      }
    }

    method Conclude(m: Assignment, r: Resolved, env: InstallEnv) returns (ok: bool)
      requires Valid() && node.manifest.Some? && ServiceOf(node, r.name).Some?
      modifies this
      ensures Valid() && trail == old(trail) + Finish(m, r, env) && ok == env.compose.Worked?
    {
      if env.lockOk { Act(PutLock(Provenance(m, r))); }
      ok := Finishing(r.name, env.clearIo, env.compose);
    }

    method RunSingle(name: string, env: RunEnv) returns (ok: bool)
      requires Valid()
      modifies this
      ensures Valid() && trail == old(trail) + SingleRun(old(node), name, env).effects
      ensures ok == SingleRun(old(node), name, env).ok
    {
      ok := FindOrCreate(env.find);
      if !ok { return; }
      var s := Find(name);
      if (!env.embedded && s.None?) || env.composeFile.None? { return false; }
      Assoc(old(trail), Opening(old(node), env.find).effects, KnownRun(node, name, env).effects);
      ok := RunKnown(name, s.Some?, env);
    }

    /** A runnable service: its compose file is written and it is registered, if need be, and it is brought up. */
    method RunKnown(name: string, known: bool, env: RunEnv) returns (ok: bool)
      requires Valid() && node.manifest.Some? && env.composeFile.Some? && known == ServiceOf(node, name).Some?
      modifies this
      ensures Valid() && trail == old(trail) + KnownRun(old(node), name, env).effects
      ensures ok == KnownRun(old(node), name, env).ok
    {
      ghost var files := if name in node.files then [] else [PutFiles(name, env.composeFile.value, NO_VARS)];
      if name !in node.files { Act(PutFiles(name, env.composeFile.value, NO_VARS)); }
      ghost var add := if known then [] else [Edit(Add(name, []))];
      if !known {
        ok := AddToManifest(name, [], Io(true, env.addOk));
        if !ok { return; }
      }
      Assoc(old(trail), files, add);
      assert trail == old(trail) + (files + add);
      Assoc(old(trail), files + add, Bringing(name, env.io, env.compose));
      ok := Finishing(name, env.io, env.compose);
    }

    /** The boot step: the marked services are skipped. */
    method Boot(outcomes: seq<Compose>, giveUp: bool) returns (ok: bool)
      requires Valid() && node.manifest.Some? && |outcomes| == |node.manifest.value.services|
      modifies this
      ensures Valid() && trail == old(trail) + BootEffects(old(node).manifest.value.services, outcomes, giveUp)
      ensures ok <==> (giveUp ==> forall j :: 0 <= j < |outcomes| ==>
                         StartDisabled(old(node).manifest.value.services[j]) || outcomes[j].Worked?)
    {
      var services := node.manifest.value.services;
      ghost var all := BootEffects(services, outcomes, giveUp);
      ghost var done: seq<Effect> := [];
      assert services[0..] == services && outcomes[0..] == outcomes;
      for i := 0 to |services|
        invariant Valid() && trail == old(trail) + done
        invariant done + BootEffects(services[i..], outcomes[i..], giveUp) == all
        invariant giveUp ==> forall j :: 0 <= j < i ==> StartDisabled(services[j]) || outcomes[j].Worked?
      {
        BootTail(services, outcomes, giveUp, i, done);
        if !StartDisabled(services[i]) {
          Assoc(old(trail), done, UpEffects(outcomes[i], services[i].name));
          var up := Compose(outcomes[i], Up(services[i].name));
          done := done + UpEffects(outcomes[i], services[i].name);
          if !up && giveUp { return false; }
        }
      }
      return true;
    }

    method ListInstalled(env: ListEnv) returns (out: seq<Installed>)
      ensures out == Report(node, env)
    {
      if node.manifest.None? || !env.readOk { return []; }
      out := Join(node.manifest.value.services, if env.lockOk then node.lock else [], node.up - env.unseen);
    }

    /** The services of the manifest, joined with the lockfile and the state of the containers. */
    static method Join(services: seq<Service>, lock: seq<LockEntry>, up: set<string>) returns (out: seq<Installed>)
      ensures out == Listings(services, lock, up)
    {
      out := [];
      for i := 0 to |services|
        invariant out == Listings(services, lock, up)[..i]
      {
        out := out + [Listing(services[i], lock, up)];
      }
    }
  }

  function Dropping(name: string, env: UninstallEnv): seq<Effect> {
    [Edit(Remove(name, env.catalogTags))]
    + (if env.lockOk then [DropLock(name)] else []) + (if env.filesOk then [DropFiles(name)] else [])
  }

  lemma {:induction false} DroppingAll(down: seq<Effect>, name: string, env: UninstallEnv)
    ensures down + Dropping(name, env) ==
            down + [Edit(Remove(name, env.catalogTags))]
            + (if env.lockOk then [DropLock(name)] else []) + (if env.filesOk then [DropFiles(name)] else [])
  {
  }

  lemma {:induction false} Assoc(a: seq<Effect>, b: seq<Effect>, c: seq<Effect>)
    ensures (a + b) + c == a + (b + c)
  {
  }

  /** The boot loop's rest, one service at a time. */
  lemma {:induction false} BootTail(services: seq<Service>, outcomes: seq<Compose>, giveUp: bool, i: nat,
                                    done: seq<Effect>)
    requires i < |services| == |outcomes|
    ensures var up := UpEffects(outcomes[i], services[i].name);
            var rest := BootEffects(services[i + 1..], outcomes[i + 1..], giveUp);
            done + BootEffects(services[i..], outcomes[i..], giveUp) ==
              if StartDisabled(services[i]) then done + rest
              else if outcomes[i].Failed? && giveUp then done + up else done + up + rest
  {
    assert services[i..][1..] == services[i + 1..] && outcomes[i..][1..] == outcomes[i + 1..];
  }

  lemma {:induction false} AddedIsThere(m: Manifest, name: string, tags: seq<string>)
    ensures FirstNamed(Added(m, name, tags).services, name) < |Added(m, name, tags).services|
  {
    if !HasService(m, name) {
      assert Added(m, name, tags).services[|m.services|].name == name;
    }
  }
}
