/**
 Gateway exposures: the live set in the running gateway against the durable set in the store file.

 `ExposureStore` and `LiveExposures` are the code, loop by loop; `Put`, `Drop` and `Rewire` say what
 the loops compute. `World` then lets whole runs happen: calls are serial, each call makes its live
 write and its durable write as two separate steps, and a restart may fall anywhere.
 */
module Exposures {
  import opened Prelude

  datatype Record = Record(name: string, port: int, visibility: string, creator: string, epoch: int)

  /** The store file: a readable list of records, or bytes that do not parse. */
  datatype File = Records(recs: seq<Record>) | Corrupt

  /** How the environment answers one durable operation. */
  datatype Disk = Disk(readOk: bool, writeOk: bool)

  predicate SlugChar(c: char) {
    'a' <= c <= 'z' || '0' <= c <= '9'
  }

  /** `^[a-z0-9]+(-[a-z0-9]+)*$` */
  predicate Slug(name: string) {
    && name != "" && SlugChar(name[0]) && SlugChar(name[|name| - 1])
    && (forall i :: 0 <= i < |name| ==> SlugChar(name[i]) || name[i] == '-')
    && (forall i :: 0 <= i < |name| - 1 ==> !(name[i] == '-' && name[i + 1] == '-'))
  }

  /** What the gateway's Expose accepts. */
  predicate Accepts(r: Record) {
    Slug(r.name) && r.visibility in {"private", "org", "link"}
  }

  // ---- which names it accepts ----

  predicate Segment(s: string) {
    s != "" && forall i :: 0 <= i < |s| ==> 'a' <= s[i] <= 'z' || '0' <= s[i] <= '9'
  }

  /** Segments, with a dash between each two. */
  function Dashed(segs: seq<string>): string
    requires segs != []
  {
    if |segs| == 1 then segs[0] else Dashed(segs[..|segs| - 1]) + "-" + segs[|segs| - 1]
  }

  lemma {:induction false} SlugAppend(a: string, s: string)
    requires Slug(a) && Segment(s)
    ensures Slug(a + "-" + s)
  {
    var name := a + "-" + s;
    forall i | 0 <= i < |name| - 1 ensures !(name[i] == '-' && name[i + 1] == '-') {
      if i + 1 < |a| { assert name[i] == a[i] && name[i + 1] == a[i + 1]; }
    }
  }

  lemma {:induction false} DashedIsSlug(segs: seq<string>)
    requires segs != [] && forall i :: 0 <= i < |segs| ==> Segment(segs[i])
    ensures Slug(Dashed(segs))
    decreases |segs|
  {
    if |segs| > 1 {
      DashedIsSlug(segs[..|segs| - 1]);
      SlugAppend(Dashed(segs[..|segs| - 1]), segs[|segs| - 1]);
    }
  }

  /** Where the last segment of a name begins. */
  function LastSegment(name: string): (k: nat)
    ensures k <= |name| && (forall i :: k <= i < |name| ==> name[i] != '-') && (k > 0 ==> name[k - 1] == '-')
  {
    if name == "" || name[|name| - 1] == '-' then |name| else LastSegment(name[..|name| - 1])
  }

  lemma {:induction false} SlugSegments(name: string) returns (segs: seq<string>)
    requires Slug(name)
    ensures segs != [] && (forall i :: 0 <= i < |segs| ==> Segment(segs[i])) && Dashed(segs) == name
    decreases |name|
  {
    var k := LastSegment(name);
    var last := name[k..];
    assert Segment(last) by { forall i | 0 <= i < |last| ensures SlugChar(last[i]) { assert last[i] == name[k + i]; } }
    if k == 0 {
      segs := [name];
    } else {
      var a := name[..k - 1];
      assert k >= 2 && name[k - 2] != '-';
      var init := SlugSegments(a);
      segs := init + [last];
      assert segs[..|segs| - 1] == init;
      assert name == a + "-" + last;
    }
  }

  ghost predicate DashedSegments(name: string) {
    exists segs: seq<string> :: segs != [] && (forall i :: 0 <= i < |segs| ==> Segment(segs[i])) && Dashed(segs) == name
  }

  /**
   The gateway accepts exactly the names made of segments of lower-case letters and digits with single
   dashes between them, and the three visibilities.
   */
  lemma {:induction false} AcceptsIff(r: Record)
    ensures Accepts(r) <==>
            DashedSegments(r.name) && (r.visibility == "private" || r.visibility == "org" || r.visibility == "link")
  {
    if Slug(r.name) {
      var segs := SlugSegments(r.name);
    }
    if DashedSegments(r.name) {
      var segs: seq<string> :|
        segs != [] && (forall i :: 0 <= i < |segs| ==> Segment(segs[i])) && Dashed(segs) == r.name;
      DashedIsSlug(segs);
    }
  }

  // ---- what the store loops compute ----

  predicate UniqueNames(recs: seq<Record>) {
    forall i, j :: 0 <= i < j < |recs| ==> recs[i].name != recs[j].name
  }

  predicate HasName(recs: seq<Record>, name: string) {
    exists i :: 0 <= i < |recs| && recs[i].name == name
  }

  /** The map a list of records stands for; the last record of a name wins. */
  function ByName(recs: seq<Record>): map<string, Record> {
    if recs == [] then map[] else ByName(recs[..|recs| - 1])[recs[|recs| - 1].name := recs[|recs| - 1]]
  }

  /** The live set a gateway gets from wiring `recs` in order: records it rejects are skipped. */
  function Rewire(recs: seq<Record>): map<string, Record> {
    if recs == [] then map[]
    else
      var r := recs[|recs| - 1];
      var rest := Rewire(recs[..|recs| - 1]);
      if Accepts(r) then rest[r.name := r] else rest
  }

  function Drop(recs: seq<Record>, name: string): seq<Record> {
    if recs == [] then []
    else
      var rest := Drop(recs[..|recs| - 1], name);
      if recs[|recs| - 1].name == name then rest else rest + [recs[|recs| - 1]]
  }

  /** Position of the first record of `name`, or the length. */
  function FirstOf(recs: seq<Record>, name: string): (k: nat)
    ensures k <= |recs| && (k < |recs| ==> recs[k].name == name)
    ensures forall i :: 0 <= i < k ==> recs[i].name != name
  {
    if recs == [] then 0
    else
      var k := FirstOf(recs[..|recs| - 1], name);
      if k < |recs| - 1 then k else if recs[|recs| - 1].name == name then |recs| - 1 else |recs|
  }

  function Put(recs: seq<Record>, rec: Record): seq<Record> {
    var k := FirstOf(recs, rec.name);
    if k < |recs| then recs[k := rec] else recs + [rec]
  }

  /** SaveExposure: an unreadable or corrupt store is replaced by a fresh one. */
  function Saved(file: File, rec: Record, disk: Disk): File {
    var recs := if disk.readOk && file.Records? then file.recs else [];
    if disk.writeOk then Records(Put(recs, rec)) else file
  }

  /** DeleteExposure: the error of a failed read is swallowed, and nothing is written. */
  function Deleted(file: File, name: string, disk: Disk): Result<File, ()> {
    if !disk.readOk || file.Corrupt? || !HasName(file.recs, name) then Ok(file)
    else if disk.writeOk then Ok(Records(Drop(file.recs, name)))
    else Err(())
  }

  function Restored(file: File, readOk: bool): map<string, Record> {
    if readOk && file.Records? then Rewire(file.recs) else map[]
  }

  function Durable(file: File): map<string, Record> {
    if file.Records? then ByName(file.recs) else map[]
  }

  // ---- the list operations mean map operations ----

  lemma {:induction false} ByNameHas(recs: seq<Record>, name: string)
    ensures name in ByName(recs) <==> HasName(recs, name)
    ensures name in ByName(recs) ==> ByName(recs)[name] in recs && ByName(recs)[name].name == name
  {
    if recs != [] {
      var init, n := recs[..|recs| - 1], |recs| - 1;
      ByNameHas(init, name);
      assert HasName(recs, name) <==> HasName(init, name) || recs[n].name == name by {
        if HasName(init, name) { var i :| 0 <= i < |init| && init[i].name == name; assert recs[i].name == name; }
        if i :| 0 <= i < |recs| && recs[i].name == name { assert i < n ==> init[i].name == name; }
      }
    }
  }

  lemma {:induction false} ByNameAt(recs: seq<Record>, i: nat)
    requires UniqueNames(recs) && i < |recs|
    ensures recs[i].name in ByName(recs) && ByName(recs)[recs[i].name] == recs[i]
  {
    if i < |recs| - 1 { ByNameAt(recs[..|recs| - 1], i); }
  }

  lemma {:induction false} PutIsUpdate(recs: seq<Record>, rec: Record)
    requires UniqueNames(recs)
    ensures UniqueNames(Put(recs, rec)) && ByName(Put(recs, rec)) == ByName(recs)[rec.name := rec]
  {
    var out := Put(recs, rec);
    forall name ensures name in ByName(out) <==> name in ByName(recs)[rec.name := rec]
                ensures name in ByName(out) ==> ByName(out)[name] == ByName(recs)[rec.name := rec][name]
    {
      ByNameHas(recs, name);
      ByNameHas(out, name);
      PutNames(recs, rec, name);
      if name in ByName(out) {
        var i :| 0 <= i < |out| && out[i].name == name;
        ByNameAt(out, i);
        if name != rec.name { assert recs[i] == out[i]; ByNameAt(recs, i); }
      }
    }
  }

  lemma {:induction false} PutNames(recs: seq<Record>, rec: Record, name: string)
    ensures HasName(Put(recs, rec), name) <==> HasName(recs, name) || name == rec.name
  {
    var out, k := Put(recs, rec), FirstOf(recs, rec.name);
    assert out[k] == rec;
    if HasName(recs, name) && name != rec.name {
      var i :| 0 <= i < |recs| && recs[i].name == name;
      assert out[i] == recs[i];
    }
    if name != rec.name { if i :| 0 <= i < |out| && out[i].name == name { assert recs[i] == out[i]; } }
  }

  lemma {:induction false} PutMembers(recs: seq<Record>, rec: Record)
    ensures forall r :: r in Put(recs, rec) ==> r in recs || r == rec
  {
    var out := Put(recs, rec);
    forall r | r in out ensures r in recs || r == rec {
      var i :| 0 <= i < |out| && out[i] == r;
      assert r == rec || r == recs[i];
    }
  }

  lemma {:induction false} DropKeeps(recs: seq<Record>, name: string)
    ensures forall r :: r in Drop(recs, name) <==> r in recs && r.name != name
  {
    if recs != [] {
      var init, last := recs[..|recs| - 1], recs[|recs| - 1];
      DropKeeps(init, name);
      assert recs == init + [last];
    }
  }

  lemma {:induction false} DropMembers(recs: seq<Record>, name: string)
    ensures forall r :: r in Drop(recs, name) <==> r in recs && r.name != name
    ensures UniqueNames(recs) ==> UniqueNames(Drop(recs, name))
    ensures !HasName(Drop(recs, name), name)
  {
    DropKeeps(recs, name);
    var d := Drop(recs, name);
    forall i | 0 <= i < |d| ensures d[i].name != name { assert d[i] in d; }
    if UniqueNames(recs) && recs != [] {
      var init, last := recs[..|recs| - 1], recs[|recs| - 1];
      DropMembers(init, name);
      assert forall i :: 0 <= i < |init| ==> recs[i] == init[i];
      DropKeeps(init, name);
      var kept := Drop(init, name);
      forall i | 0 <= i < |kept| ensures kept[i].name != last.name {
        assert kept[i] in kept;
        var k :| 0 <= k < |init| && init[k] == kept[i];
        assert recs[k].name != recs[|recs| - 1].name;
      }
    }
  }

  lemma {:induction false} DropIsRemove(recs: seq<Record>, name: string)
    ensures ByName(Drop(recs, name)) == ByName(recs) - {name}
  {
    if recs != [] {
      var init, last := recs[..|recs| - 1], recs[|recs| - 1];
      DropIsRemove(init, name);
      if last.name != name {
        var d := Drop(init, name);
        assert (d + [last])[..|d|] == d;
      }
    }
  }

  /** Where every record is acceptable, wiring a store gives exactly the map it stands for. */
  lemma {:induction false} RewireIsByName(recs: seq<Record>)
    requires forall r :: r in recs ==> Accepts(r)
    ensures Rewire(recs) == ByName(recs)
  {
    if recs != [] { RewireIsByName(recs[..|recs| - 1]); }
  }

  /** Whatever the store holds, a restored name has a record of that name. */
  lemma {:induction false} RewireHas(recs: seq<Record>, name: string)
    requires name in Rewire(recs)
    ensures HasName(recs, name)
  {
    var init := recs[..|recs| - 1];
    if name in Rewire(init) {
      RewireHas(init, name);
      var i :| 0 <= i < |init| && init[i].name == name;
      assert recs[i].name == name;
    } else {
      assert recs[|recs| - 1].name == name;
    }
  }

  // ---- the code ----

  class ExposureStore {
    var file: File

    constructor (file: File)
      ensures this.file == file
    {
      this.file := file;
    }

    method SaveExposure(rec: Record, disk: Disk) returns (ok: bool)
      modifies this
      ensures file == Saved(old(file), rec, disk) && ok == disk.writeOk
    {
      var recs := if disk.readOk && file.Records? then file.recs else [];
      var replaced, i := false, 0;
      ghost var loaded := recs;
      while i < |recs| && !replaced
        invariant 0 <= i <= |loaded| && |recs| == |loaded| && file == old(file)
        invariant forall k :: 0 <= k < i && !replaced ==> loaded[k].name != rec.name
        invariant !replaced ==> recs == loaded
        invariant replaced ==> i < |loaded| && i == FirstOf(loaded, rec.name) && recs == loaded[i := rec]
        decreases !replaced, |recs| - i
      {
        if recs[i].name == rec.name {
          FirstIs(loaded, rec.name, i);
          recs := recs[i := rec];
          replaced := true;
        } else {
          i := i + 1;
        }
      }
      if !replaced {
        assert FirstOf(loaded, rec.name) == |loaded|;
        recs := recs + [rec];
      }
      ok := disk.writeOk;
      if ok { file := Records(recs); }
    }

    method DeleteExposure(name: string, disk: Disk) returns (ok: bool)
      modifies this
      ensures ok == Deleted(old(file), name, disk).Ok?
      ensures file == if ok then Deleted(old(file), name, disk).value else old(file)
    {
      if !disk.readOk || file.Corrupt? || |file.recs| == 0 { return true; }
      var recs, out := file.recs, [];
      for i := 0 to |recs|
        invariant out == Drop(recs[..i], name)
      {
        assert recs[..i + 1][..i] == recs[..i];
        if recs[i].name != name { out := out + [recs[i]]; }
      }
      assert recs[..|recs|] == recs;
      DropShrinks(recs, name);
      if |out| == |recs| { return true; }
      ok := disk.writeOk;
      if ok { file := Records(out); }
    }
  }

  lemma {:induction false} FirstIs(recs: seq<Record>, name: string, i: nat)
    requires i < |recs| && recs[i].name == name && forall k :: 0 <= k < i ==> recs[k].name != name
    ensures FirstOf(recs, name) == i
  {
  }

  lemma {:induction false} DropShrinks(recs: seq<Record>, name: string)
    ensures |Drop(recs, name)| <= |recs|
    ensures |Drop(recs, name)| == |recs| <==> !HasName(recs, name)
  {
    if recs != [] {
      var init := recs[..|recs| - 1];
      DropShrinks(init, name);
      assert recs[|recs| - 1].name == name ==> HasName(recs, name);
      if HasName(init, name) { var i :| 0 <= i < |init| && init[i].name == name; assert recs[i].name == name; }
      if i :| 0 <= i < |recs| && recs[i].name == name { assert i < |init| ==> init[i].name == name; }
    }
  }

  datatype ExposeError = NoGateway | Rejected | NoSigningKey | EmptyName | NotRemoved

  class LiveExposures {
    var gateway: bool
    var live: map<string, Record>
    const store: ExposureStore

    constructor (store: ExposureStore)
      ensures this.store == store && !gateway && live == map[]
    {
      this.store := store;
      gateway, live := false, map[];
    }

    /** A failed save is only logged; a missing signing key fails the call after both writes. */
    method Expose(rec: Record, disk: Disk, keyOk: bool) returns (r: Result<(), ExposeError>)
      modifies this`live, store
      ensures !gateway ==> r == Err(NoGateway)
      ensures gateway && !Accepts(rec) ==> r == Err(Rejected)
      ensures !gateway || !Accepts(rec) ==> live == old(live) && store.file == old(store.file)
      ensures gateway && Accepts(rec) ==>
                && live == old(live)[rec.name := rec] && store.file == Saved(old(store.file), rec, disk)
                && r == if rec.visibility == "link" && !keyOk then Err(NoSigningKey) else Ok(())
    {
      if !gateway { return Err(NoGateway); }
      if !Accepts(rec) { return Err(Rejected); }
      live := live[rec.name := rec];
      var _ := store.SaveExposure(rec, disk);
      if rec.visibility == "link" && !keyOk { return Err(NoSigningKey); }
      return Ok(());
    }

    method Unexpose(name: string, disk: Disk) returns (r: Result<bool, ExposeError>)
      modifies this`live, store
      ensures name == "" ==> r == Err(EmptyName)
      ensures name != "" && !gateway ==> r == Err(NoGateway)
      ensures name == "" || !gateway ==> live == old(live) && store.file == old(store.file)
      ensures name != "" && gateway ==>
                && live == old(live) - {name}
                && (match Deleted(old(store.file), name, disk)
                    case Ok(file) => store.file == file && r == Ok(name in old(live))
                    case Err(_) => store.file == old(store.file) && r == Err(NotRemoved))
    {
      if name == "" { return Err(EmptyName); }
      if !gateway { return Err(NoGateway); }
      var wasExposed := name in live;
      live := live - {name};
      var ok := store.DeleteExposure(name, disk);
      r := if ok then Ok(wasExposed) else Err(NotRemoved);
    }

    /** A new process: a fresh gateway gets the persisted set before it serves anything. */
    method Restart(readOk: bool)
      modifies this`live, this`gateway
      ensures gateway && live == Restored(store.file, readOk)
    {
      gateway, live := true, map[];
      if !readOk || store.file.Corrupt? { return; }
      var recs := store.file.recs;
      for i := 0 to |recs|
        invariant live == Rewire(recs[..i]) && gateway
      {
        assert recs[..i + 1][..i] == recs[..i];
        if Accepts(recs[i]) { live := live[recs[i].name := recs[i]]; }
      }
      assert recs[..|recs|] == recs;
    }
  }
}
