/** Exposures over whole runs: serial calls, failing disks, and a restart at any point. */
module ExposureRuns {
  import opened Prelude
  import opened Exposures

  /** The call that has made its live write and not yet its durable one. */
  datatype Flight = Idle | Saving(rec: Record) | Deleting(name: string)

  datatype World = World(live: map<string, Record>, file: File, flight: Flight)

  /** A call makes its live write in Begin and its durable write in Finish; Restart drops any call in flight. */
  datatype Step =
    | BeginExpose(rec: Record)
    | FinishExpose(disk: Disk)
    | BeginUnexpose(name: string)
    | FinishUnexpose(disk: Disk)
    | Restart(readOk: bool)

  predicate Enabled(w: World, st: Step) {
    match st
    case BeginExpose(rec) => w.flight.Idle? && Accepts(rec)
    case FinishExpose(_) => w.flight.Saving?
    case BeginUnexpose(name) => w.flight.Idle? && name != ""
    case FinishUnexpose(_) => w.flight.Deleting?
    case Restart(_) => true
  }

  function Do(w: World, st: Step): World
    requires Enabled(w, st)
  {
    match st
    case BeginExpose(rec) => w.(live := w.live[rec.name := rec], flight := Saving(rec))
    case FinishExpose(disk) => w.(file := Saved(w.file, w.flight.rec, disk), flight := Idle)
    case BeginUnexpose(name) => w.(live := w.live - {name}, flight := Deleting(name))
    case FinishUnexpose(disk) =>
      var d := Deleted(w.file, w.flight.name, disk);
      w.(file := if d.Ok? then d.value else w.file, flight := Idle)
    case Restart(readOk) => World(Restored(w.file, readOk), w.file, Idle)
  }

  ghost predicate IsRun(ws: seq<World>, steps: seq<Step>) {
    && |ws| == |steps| + 1
    && forall i :: 0 <= i < |steps| ==> Enabled(ws[i], steps[i]) && ws[i + 1] == Do(ws[i], steps[i])
  }

  /** The two halves of a call are the method bodies of the code. */
  method ExposeIsBothHalves(ops: LiveExposures, rec: Record, disk: Disk, keyOk: bool)
    requires ops.gateway && Accepts(rec)
    modifies ops`live, ops.store
    ensures World(ops.live, ops.store.file, Idle) ==
            Do(Do(World(old(ops.live), old(ops.store.file), Idle), BeginExpose(rec)), FinishExpose(disk))
  {
    var _ := ops.Expose(rec, disk, keyOk);
  }

  method UnexposeIsBothHalves(ops: LiveExposures, name: string, disk: Disk)
    requires ops.gateway && name != ""
    modifies ops`live, ops.store
    ensures World(ops.live, ops.store.file, Idle) ==
            Do(Do(World(old(ops.live), old(ops.store.file), Idle), BeginUnexpose(name)), FinishUnexpose(disk))
  {
    var _ := ops.Unexpose(name, disk);
  }

  // ---- what the store holds ----

  /** The store was written by this code: one record a name, each of them accepted by the gateway. */
  predicate StoreOk(file: File) {
    file.Records? ==> UniqueNames(file.recs) && forall r :: r in file.recs ==> Accepts(r)
  }

  /** The store is sound and the live write of the call in flight has been made. */
  predicate Ok(w: World) {
    && StoreOk(w.file)
    && (forall name :: name in w.live ==> w.live[name].name == name)
    && (match w.flight
        case Idle => true
        case Saving(rec) => Accepts(rec) && rec.name in w.live && w.live[rec.name] == rec
        case Deleting(name) => name !in w.live)
  }

  lemma {:induction false} SavedIs(file: File, rec: Record, disk: Disk)
    requires StoreOk(file) && Accepts(rec)
    ensures StoreOk(Saved(file, rec, disk))
    ensures disk.writeOk && disk.readOk ==> Durable(Saved(file, rec, disk)) == Durable(file)[rec.name := rec]
    ensures disk.writeOk && !disk.readOk ==> Durable(Saved(file, rec, disk)) == map[rec.name := rec]
    ensures !disk.writeOk ==> Saved(file, rec, disk) == file
  {
    var recs := if disk.readOk && file.Records? then file.recs else [];
    PutIsUpdate(recs, rec);
    PutMembers(recs, rec);
    assert ByName([]) == map[];
  }

  lemma {:induction false} DeletedIs(file: File, name: string, disk: Disk)
    requires StoreOk(file) && Deleted(file, name, disk).Ok?
    ensures StoreOk(Deleted(file, name, disk).value)
    ensures Durable(Deleted(file, name, disk).value) == if disk.readOk then Durable(file) - {name} else Durable(file)
  {
    if file.Records? {
      DropIsRemove(file.recs, name);
      DropMembers(file.recs, name);
      ByNameHas(file.recs, name);
    }
  }

  lemma {:induction false} RestoredIs(file: File, readOk: bool)
    requires StoreOk(file)
    ensures Restored(file, readOk) == if readOk then Durable(file) else map[]
  {
    if file.Records? { RewireIsByName(file.recs); }
  }

  lemma {:induction false} OkStep(w: World, st: Step)
    requires Ok(w) && Enabled(w, st)
    ensures Ok(Do(w, st))
  {
    match st
    case FinishExpose(disk) => SavedIs(w.file, w.flight.rec, disk);
    case FinishUnexpose(disk) => if Deleted(w.file, w.flight.name, disk).Ok? { DeletedIs(w.file, w.flight.name, disk); }
    case Restart(readOk) =>
      RestoredIs(w.file, readOk);
      forall name ensures name in Durable(w.file) ==> Durable(w.file)[name].name == name { DurableNamed(w.file, name); }
    case _ =>
  }

  lemma {:induction false} DurableNamed(file: File, name: string)
    ensures name in Durable(file) ==> Durable(file)[name].name == name
  {
    if file.Records? { ByNameHas(file.recs, name); }
  }

  // ---- one abstract map ----

  predicate DiskWorks(st: Step) {
    match st
    case FinishExpose(disk) => disk.readOk && disk.writeOk
    case FinishUnexpose(disk) => disk.readOk && disk.writeOk
    case Restart(readOk) => readOk
    case _ => true
  }

  /** The live set is the durable set, up to the call in flight. */
  predicate InSync(w: World) {
    w.live == match w.flight
              case Idle => Durable(w.file)
              case Saving(rec) => Durable(w.file)[rec.name := rec]
              case Deleting(name) => Durable(w.file) - {name}
  }

  lemma {:induction false} InSyncStep(w: World, st: Step)
    requires Ok(w) && InSync(w) && Enabled(w, st) && DiskWorks(st)
    ensures InSync(Do(w, st))
  {
    match st
    case FinishExpose(disk) => SavedIs(w.file, w.flight.rec, disk);
    case FinishUnexpose(disk) => DeletedIs(w.file, w.flight.name, disk);
    case Restart(readOk) => RestoredIs(w.file, readOk);
    case _ =>
  }

  /**
   Refinement: while the disk works, live and durable are one map at every state of every run, each
   call changes it as a map update would, and a restart between calls changes nothing.
   */
  lemma {:induction false} LiveIsDurable(ws: seq<World>, steps: seq<Step>, i: nat)
    requires IsRun(ws, steps) && Ok(ws[0]) && InSync(ws[0]) && i < |ws|
    requires forall k :: 0 <= k < |steps| ==> DiskWorks(steps[k])
    ensures Ok(ws[i]) && InSync(ws[i])
    ensures ws[i].flight.Idle? ==> ws[i].live == Durable(ws[i].file) && Do(ws[i], Restart(true)) == ws[i]
  {
    if i > 0 {
      LiveIsDurable(ws, steps, i - 1);
      OkStep(ws[i - 1], steps[i - 1]);
      InSyncStep(ws[i - 1], steps[i - 1]);
    }
    RestoredIs(ws[i].file, true);
  }

  // ---- a successful Unexpose ----

  predicate Recorded(file: File, name: string) {
    file.Records? && HasName(file.recs, name)
  }

  /** Not served, not recorded, and no call about to record it. */
  predicate Absent(w: World, name: string) {
    name !in w.live && !Recorded(w.file, name) && !(w.flight.Saving? && w.flight.rec.name == name)
  }

  lemma {:induction false} AbsentStep(w: World, st: Step, name: string)
    requires Enabled(w, st) && Absent(w, name) && !(st.BeginExpose? && st.rec.name == name)
    ensures Absent(Do(w, st), name)
  {
    match st
    case FinishExpose(disk) =>
      var recs := if disk.readOk && w.file.Records? then w.file.recs else [];
      PutNames(recs, w.flight.rec, name);
    case FinishUnexpose(disk) =>
      if w.file.Records? { DropKeepsAbsent(w.file.recs, w.flight.name, name); }
    case Restart(readOk) =>
      if name in Restored(w.file, readOk) { RewireHas(w.file.recs, name); }
    case _ =>
  }

  lemma {:induction false} DropKeepsAbsent(recs: seq<Record>, dropped: string, name: string)
    requires !HasName(recs, name)
    ensures !HasName(Drop(recs, dropped), name)
  {
    DropMembers(recs, dropped);
  }

  lemma {:induction false} AbsentRun(ws: seq<World>, steps: seq<Step>, i: nat, name: string)
    requires IsRun(ws, steps) && Absent(ws[0], name) && i < |ws|
    requires forall k :: 0 <= k < |steps| ==> !(steps[k].BeginExpose? && steps[k].rec.name == name)
    ensures Absent(ws[i], name)
  {
    if i > 0 {
      AbsentRun(ws, steps, i - 1, name);
      AbsentStep(ws[i - 1], steps[i - 1], name);
    }
  }

  /** No continuation without a new Expose of `name` ever serves it. */
  ghost predicate StaysUnserved(w: World, name: string) {
    forall ws: seq<World>, steps: seq<Step> | IsRun(ws, steps) && ws[0] == w &&
      (forall k :: 0 <= k < |steps| ==> !(steps[k].BeginExpose? && steps[k].rec.name == name)) ::
      name !in ws[|steps|].live
  }

  /**
   A revoke that reported success holds through any number of restarts, crashes and failing disks
   until the next Expose of the name, exactly when its delete could read the store or there was no
   record to delete: a failed read is reported as success and leaves the record behind.
   */
  lemma {:induction false} UnexposeSticksIff(w: World, disk: Disk)
    requires Ok(w) && w.flight.Deleting?
    requires Deleted(w.file, w.flight.name, disk).Ok?
    ensures StaysUnserved(Do(w, FinishUnexpose(disk)), w.flight.name)
            <==> disk.readOk || !Recorded(w.file, w.flight.name)
  {
    var name, w' := w.flight.name, Do(w, FinishUnexpose(disk));
    if disk.readOk || !Recorded(w.file, name) {
      if w.file.Records? { DropMembers(w.file.recs, name); }
      assert Absent(w', name);
      forall ws: seq<World>, steps: seq<Step> | IsRun(ws, steps) && ws[0] == w' &&
        (forall k :: 0 <= k < |steps| ==> !(steps[k].BeginExpose? && steps[k].rec.name == name))
        ensures name !in ws[|steps|].live
      {
        AbsentRun(ws, steps, |steps|, name);
      }
    } else {
      var ws, steps := [w', Do(w', Restart(true))], [Restart(true)];
      RestoredIs(w.file, true);
      ByNameHas(w.file.recs, name);
      assert IsRun(ws, steps) && ws[0] == w' && name in ws[|steps|].live;
    }
  }

  // ---- served without a record ----

  /** Served with no record of what is served, and no save of it under way. */
  predicate Orphan(w: World, name: string) {
    && name in w.live && !(name in Durable(w.file) && Durable(w.file)[name] == w.live[name])
    && w.flight != Saving(w.live[name])
  }

  /** The two ways a save leaves `name` served without a record. */
  predicate LosesRecord(w: World, st: Step, name: string) {
    st.FinishExpose? && w.flight.Saving? && name in w.live &&
    if w.flight.rec == w.live[name] then !st.disk.writeOk
    else w.flight.rec.name != name && !st.disk.readOk && st.disk.writeOk
  }

  predicate RecordedAsServed(w: World, name: string) {
    name in w.live && name in Durable(w.file) && Durable(w.file)[name] == w.live[name]
  }

  lemma {:induction false} SaveOrigin(w: World, disk: Disk, name: string)
    requires Ok(w) && Enabled(w, FinishExpose(disk)) && !Orphan(w, name)
    ensures Orphan(Do(w, FinishExpose(disk)), name) <==>
              && LosesRecord(w, FinishExpose(disk), name)
              && (w.flight.rec == w.live[name] ==> !RecordedAsServed(w, name))
  {
    SavedIs(w.file, w.flight.rec, disk);
  }

  lemma {:induction false} NoOtherOrigin(w: World, st: Step, name: string)
    requires Ok(w) && Enabled(w, st) && !Orphan(w, name) && !st.FinishExpose?
    ensures !Orphan(Do(w, st), name)
  {
    match st
    case FinishUnexpose(disk) => if Deleted(w.file, w.flight.name, disk).Ok? { DeletedIs(w.file, w.flight.name, disk); }
    case Restart(readOk) => RestoredIs(w.file, readOk);
    case _ =>
  }

  /**
   A name becomes an orphan exactly when its own save fails while no equal record exists, or when the
   save of another name cannot read the store and starts a fresh one without it.
   */
  lemma {:induction false} OrphanOrigin(w: World, st: Step, name: string)
    requires Ok(w) && Enabled(w, st) && !Orphan(w, name)
    ensures Orphan(Do(w, st), name) <==>
              LosesRecord(w, st, name) && (w.flight.rec == w.live[name] ==> !RecordedAsServed(w, name))
  {
    if st.FinishExpose? { SaveOrigin(w, st.disk, name); } else { NoOtherOrigin(w, st, name); }
  }

  /**
   Over whole runs: whoever is served without a record at some state lost it in an earlier step of one
   of those two kinds.
   */
  lemma {:induction false} OrphanHasOrigin(ws: seq<World>, steps: seq<Step>, i: nat, name: string) returns (k: nat)
    requires IsRun(ws, steps) && Ok(ws[0]) && !Orphan(ws[0], name) && i < |ws| && Orphan(ws[i], name)
    ensures k < i && LosesRecord(ws[k], steps[k], name)
    decreases i
  {
    OkRun(ws, steps, i - 1);
    if Orphan(ws[i - 1], name) {
      k := OrphanHasOrigin(ws, steps, i - 1, name);
    } else {
      OrphanOrigin(ws[i - 1], steps[i - 1], name);
      k := i - 1;
    }
  }

  lemma {:induction false} OkRun(ws: seq<World>, steps: seq<Step>, i: nat)
    requires IsRun(ws, steps) && Ok(ws[0]) && i < |ws|
    ensures Ok(ws[i])
  {
    if i > 0 {
      OkRun(ws, steps, i - 1);
      OkStep(ws[i - 1], steps[i - 1]);
    }
  }

  /** One name's save can orphan another: here both saves report success. */
  lemma {:induction false} SaveOrphansAnother()
    ensures exists w: World, rec: Record, disk: Disk ::
              Ok(w) && InSync(w) && w.flight == Idle && Accepts(rec) && disk.writeOk &&
              var w' := Do(Do(w, BeginExpose(rec)), FinishExpose(disk));
              exists name :: name != rec.name && !Orphan(w, name) && Orphan(w', name)
  {
    var a, b := Record("a", 1, "org", "", 0), Record("b", 2, "org", "", 0);
    var w := World(map["a" := a], Records([a]), Idle);
    assert [a][..0] == [];
    assert ByName([]) == map[];
    assert ByName([a]) == map["a" := a];
    var disk := Disk(false, true);
    var w' := Do(Do(w, BeginExpose(b)), FinishExpose(disk));
    SavedIs(w.file, b, disk);
    assert "a" != "b";
    assert Orphan(w', "a") && !Orphan(w, "a");
  }
}
