/** The node manifest: its services in order, and the node's routing tags. */
module Manifest {
  import opened Prelude
  import opened Text

  datatype Service = Service(name: string, kind: string, composeFile: string, port: int, desiredStatus: string)

  datatype Manifest = Manifest(services: seq<Service>, tags: seq<string>)

  /** Whether an edit could read the manifest file and write it back. */
  datatype Io = Io(readOk: bool, writeOk: bool)

  const STOPPED := "stopped"

  /** The marker both boot paths consult. */
  predicate StartDisabled(s: Service) {
    EqualFold(TrimSpace(s.desiredStatus), STOPPED)
  }

  /** A spelling of "stopped", in whatever case. */
  predicate Spells(w: string) {
    && |w| == 7
    && forall i :: 0 <= i < 7 ==> w[i] == "stopped"[i] || w[i] == "STOPPED"[i] || (i == 0 && w[i] == '\U{17F}')
  }

  lemma {:induction false} SpellsIff(w: string)
    ensures EqualFold(w, STOPPED) <==> Spells(w)
  {
    forall i | |w| == 7 && 0 <= i < 7
      ensures Fold(w[i]) == Fold(STOPPED[i]) <==>
              w[i] == "stopped"[i] || w[i] == "STOPPED"[i] || (i == 0 && w[i] == '\U{17F}')
    {
      FoldIs(w[i], STOPPED[i]);
      assert STOPPED[i] == 's' <==> i == 0;
      assert "STOPPED"[i] as int + 32 == STOPPED[i] as int;
    }
  }

  lemma {:induction false} FoldIs(c: char, l: char)
    requires 'a' <= l <= 'z'
    ensures Fold(c) == Fold(l) <==> c == l || c as int + 32 == l as int || (l == 's' && c == '\U{17F}')
  {
  }

  /** A service carries the marker exactly if its status spells "stopped", in any case and between blanks. */
  lemma {:induction false} MarkerIff(s: Service)
    ensures StartDisabled(s) <==>
            exists a, w, b :: Blank(a) && Blank(b) && Spells(w) && s.desiredStatus == a + w + b
  {
    SpellsIff(TrimSpace(s.desiredStatus));
    if StartDisabled(s) {
      var a, b := TrimSplits(s.desiredStatus);
      assert s.desiredStatus == a + TrimSpace(s.desiredStatus) + b;
    }
    if a, w, b :| Blank(a) && Blank(b) && Spells(w) && s.desiredStatus == a + w + b {
      assert w[0] in {'s', 'S', '\U{17F}'} && w[6] in {'d', 'D'};
      TrimOf(a, w, b);
    }
  }

  predicate HasService(m: Manifest, name: string) {
    exists i :: 0 <= i < |m.services| && m.services[i].name == name
  }

  predicate UniqueNames(services: seq<Service>) {
    forall i, j :: 0 <= i < j < |services| ==> services[i].name != services[j].name
  }

  predicate NoDuplicates(tags: seq<string>) {
    forall i, j :: 0 <= i < j < |tags| ==> tags[i] != tags[j]
  }

  predicate WellFormed(m: Manifest) {
    UniqueNames(m.services) && NoDuplicates(m.tags)
  }

  // ---- what the operations compute ----

  function ComposeRel(name: string): string {
    "services/" + name + ".yml"
  }

  /** Capability tags an embedded service brings along. */
  function BuiltinTags(name: string): seq<string> {
    if name == "extraction" then ["extraction:gliner2", "model:gliner2-base-v1"] else []
  }

  function MergeTags(tags: seq<string>, more: seq<string>): seq<string> {
    if more == [] then tags
    else
      var merged := MergeTags(tags, more[..|more| - 1]);
      var t := more[|more| - 1];
      if t == "" || t in merged then merged else merged + [t]
  }

  function Strip(tags: seq<string>, remove: seq<string>): seq<string> {
    if tags == [] then []
    else
      var kept := Strip(tags[..|tags| - 1], remove);
      if tags[|tags| - 1] in remove then kept else kept + [tags[|tags| - 1]]
  }

  function Without(services: seq<Service>, name: string): seq<Service> {
    if services == [] then []
    else
      var kept := Without(services[..|services| - 1], name);
      if services[|services| - 1].name == name then kept else kept + [services[|services| - 1]]
  }

  /** addServiceToManifestWithTags: a service already present leaves everything alone. */
  function Added(m: Manifest, name: string, nodeTags: seq<string>): Manifest {
    if HasService(m, name) then m
    else Manifest(m.services + [Service(name, "", ComposeRel(name), 0, "")],
                  MergeTags(m.tags, BuiltinTags(name) + nodeTags))
  }

  /** removeServiceFromManifest; `catalogTags` are the tags the catalog declares now, empty if it has no entry. */
  function Removed(m: Manifest, name: string, catalogTags: seq<string>): Manifest {
    Manifest(Without(m.services, name), Strip(m.tags, catalogTags))
  }

  function FirstNamed(services: seq<Service>, name: string): (k: nat)
    ensures k <= |services| && (k < |services| ==> services[k].name == name)
    ensures forall i :: 0 <= i < k ==> services[i].name != name
  {
    if services == [] then 0
    else
      var k := FirstNamed(services[..|services| - 1], name);
      if k < |services| - 1 then k else if services[|services| - 1].name == name then |services| - 1 else |services|
  }

  /** setServiceDesiredStatus: an error when the service is not there. */
  function WithStatus(m: Manifest, name: string, status: string): Option<Manifest> {
    var k := FirstNamed(m.services, name);
    if k == |m.services| then None
    else Some(m.(services := m.services[k := m.services[k].(desiredStatus := status)]))
  }

  // ---- facts about them ----

  lemma {:induction false} MergeShape(tags: seq<string>, more: seq<string>)
    ensures |tags| <= |MergeTags(tags, more)| && MergeTags(tags, more)[..|tags|] == tags
    ensures NoDuplicates(tags) ==> NoDuplicates(MergeTags(tags, more))
    ensures forall t :: t in MergeTags(tags, more) <==> t in tags || (t != "" && t in more)
    ensures forall i :: |tags| <= i < |MergeTags(tags, more)| ==> MergeTags(tags, more)[i] !in tags
  {
    if more != [] {
      var init, t := more[..|more| - 1], more[|more| - 1];
      MergeShape(tags, init);
      assert more == init + [t];
    }
  }

  lemma {:induction false} StripMembers(tags: seq<string>, remove: seq<string>)
    ensures forall t :: t in Strip(tags, remove) <==> t in tags && t !in remove
    ensures |Strip(tags, remove)| <= |tags|
  {
    if tags != [] {
      var init, t := tags[..|tags| - 1], tags[|tags| - 1];
      StripMembers(init, remove);
      assert tags == init + [t];
    }
  }

  lemma {:induction false} StripShape(tags: seq<string>, remove: seq<string>)
    ensures forall t :: t in Strip(tags, remove) <==> t in tags && t !in remove
    ensures NoDuplicates(tags) ==> NoDuplicates(Strip(tags, remove))
    ensures |Strip(tags, remove)| <= |tags|
  {
    StripMembers(tags, remove);
    if tags != [] && NoDuplicates(tags) {
      var init, t := tags[..|tags| - 1], tags[|tags| - 1];
      StripShape(init, remove);
      assert NoDuplicates(init) && t !in init;
      Appended(Strip(init, remove), t);
    }
  }

  lemma {:induction false} Appended(tags: seq<string>, t: string)
    requires NoDuplicates(tags) && t !in tags
    ensures NoDuplicates(tags + [t])
  {
  }

  lemma {:induction false} StripConcat(a: seq<string>, b: seq<string>, remove: seq<string>)
    ensures Strip(a + b, remove) == Strip(a, remove) + Strip(b, remove)
  {
    if b == [] {
      assert a + b == a;
    } else {
      var init := b[..|b| - 1];
      assert (a + b)[..|a + b| - 1] == a + init;
      StripConcat(a, init, remove);
    }
  }

  lemma {:induction false} StripNothing(tags: seq<string>, remove: seq<string>)
    ensures Strip(tags, remove) == tags <==> forall t :: t in tags ==> t !in remove
  {
    StripShape(tags, remove);
    if (forall t :: t in tags ==> t !in remove) && tags != [] {
      var init := tags[..|tags| - 1];
      StripNothing(init, remove);
      assert tags == init + [tags[|tags| - 1]];
    }
  }

  lemma {:induction false} WithoutShape(services: seq<Service>, name: string)
    ensures forall s :: s in Without(services, name) <==> s in services && s.name != name
    ensures |Without(services, name)| <= |services|
    ensures (forall s :: s in services ==> s.name != name) ==> Without(services, name) == services
  {
    if services != [] {
      var init, s := services[..|services| - 1], services[|services| - 1];
      WithoutShape(init, name);
      assert services == init + [s];
    }
  }

  lemma {:induction false} WithoutUnique(services: seq<Service>, name: string)
    requires UniqueNames(services)
    ensures UniqueNames(Without(services, name))
  {
    if services != [] {
      var init, s := services[..|services| - 1], services[|services| - 1];
      WithoutUnique(init, name);
      WithoutShape(init, name);
      var kept := Without(init, name);
      forall i | 0 <= i < |kept| ensures kept[i].name != s.name {
        var k :| 0 <= k < |init| && init[k] == kept[i];
        assert services[k].name != services[|services| - 1].name;
      }
    }
  }

  lemma {:induction false} MergeConcat(tags: seq<string>, a: seq<string>, b: seq<string>)
    ensures MergeTags(tags, a + b) == MergeTags(MergeTags(tags, a), b)
  {
    if b == [] {
      assert a + b == a;
    } else {
      assert (a + b)[..|a + b| - 1] == a + b[..|b| - 1];
      MergeConcat(tags, a, b[..|b| - 1]);
    }
  }

  // ---- the edits, loop by loop, on the manifest as read ----

  method HasServiceLoop(m: Manifest, name: string) returns (found: bool)
    ensures found == HasService(m, name)
  {
    for i := 0 to |m.services|
      invariant forall j :: 0 <= j < i ==> m.services[j].name != name
    {
      if m.services[i].name == name { return true; }
    }
    return false;
  }

  method MergeLoop(tags: seq<string>, more: seq<string>) returns (merged: seq<string>)
    ensures merged == MergeTags(tags, more)
  {
    merged := tags;
    for i := 0 to |more|
      invariant merged == MergeTags(tags, more[..i])
    {
      assert more[..i + 1][..i] == more[..i];
      if more[i] != "" && more[i] !in merged { merged := merged + [more[i]]; }
    }
    assert more[..|more|] == more;
  }

  method AddService(m: Manifest, name: string, nodeTags: seq<string>) returns (out: Manifest)
    ensures out == Added(m, name, nodeTags)
  {
    var present := HasServiceLoop(m, name);
    if present { return m; }
    var tags := MergeLoop(m.tags, BuiltinTags(name));
    tags := MergeLoop(tags, nodeTags);
    MergeConcat(m.tags, BuiltinTags(name), nodeTags);
    return Manifest(m.services + [Service(name, "", ComposeRel(name), 0, "")], tags);
  }

  method StripTags(tags: seq<string>, remove: seq<string>) returns (out: seq<string>)
    ensures out == Strip(tags, remove)
  {
    StripNothing(tags, remove);
    if |remove| == 0 { return tags; }
    out := [];
    for i := 0 to |tags|
      invariant out == Strip(tags[..i], remove)
    {
      assert tags[..i + 1][..i] == tags[..i];
      if tags[i] !in remove { out := out + [tags[i]]; }
    }
    assert tags[..|tags|] == tags;
  }

  method RemoveService(m: Manifest, name: string, catalogTags: seq<string>) returns (out: Manifest)
    ensures out == Removed(m, name, catalogTags)
  {
    var kept := [];
    for i := 0 to |m.services|
      invariant kept == Without(m.services[..i], name)
    {
      assert m.services[..i + 1][..i] == m.services[..i];
      if m.services[i].name != name { kept := kept + [m.services[i]]; }
    }
    assert m.services[..|m.services|] == m.services;
    var tags := m.tags;
    StripNothing(tags, catalogTags);
    if |catalogTags| > 0 { tags := StripTags(tags, catalogTags); }
    return Manifest(kept, tags);
  }

  method SetStatusLoop(m: Manifest, name: string, status: string) returns (found: bool, out: Manifest)
    ensures found == WithStatus(m, name, status).Some?
    ensures out == if found then WithStatus(m, name, status).value else m
  {
    for i := 0 to |m.services|
      invariant forall j :: 0 <= j < i ==> m.services[j].name != name
    {
      if m.services[i].name == name {
        return true, m.(services := m.services[i := m.services[i].(desiredStatus := status)]);
      }
    }
    return false, m;
  }

  datatype Op =
    | Add(name: string, tags: seq<string>)
    | Remove(name: string, tags: seq<string>)
    | SetStatus(name: string, status: string)

  function Apply(m: Manifest, op: Op): Manifest {
    match op
    case Add(name, tags) => Added(m, name, tags)
    case Remove(name, tags) => Removed(m, name, tags)
    case SetStatus(name, status) => var r := WithStatus(m, name, status); if r.Some? then r.value else m
  }

  function ApplyAll(m: Manifest, ops: seq<Op>): Manifest {
    if ops == [] then m else Apply(ApplyAll(m, ops[..|ops| - 1]), ops[|ops| - 1])
  }

  lemma {:induction false} ApplyKeeps(m: Manifest, op: Op)
    requires WellFormed(m)
    ensures WellFormed(Apply(m, op))
  {
    match op
    case Add(name, tags) => MergeShape(m.tags, BuiltinTags(name) + tags);
    case Remove(name, tags) =>
      WithoutUnique(m.services, name);
      StripShape(m.tags, tags);
    case SetStatus(name, status) =>
  }

  /** Any sequence of add, remove and set-status keeps names unique and tags free of duplicates. */
  lemma {:induction false} ApplyAllKeeps(m: Manifest, ops: seq<Op>)
    requires WellFormed(m)
    ensures WellFormed(ApplyAll(m, ops))
  {
    if ops != [] {
      ApplyAllKeeps(m, ops[..|ops| - 1]);
      ApplyKeeps(ApplyAll(m, ops[..|ops| - 1]), ops[|ops| - 1]);
    }
  }

  /**
   Adding a service that is not there appends it, with the compose file in the services directory, and the
   tags declared for it and built in for its name.
   */
  lemma {:induction false} AddedIs(m: Manifest, name: string, nodeTags: seq<string>, t: string)
    requires !HasService(m, name)
    ensures Added(m, name, nodeTags).services ==
            m.services + [Service(name, "", "services/" + name + ".yml", 0, "")]
    ensures t in Added(m, name, nodeTags).tags <==>
              || t in m.tags || (t != "" && t in nodeTags)
              || (name == "extraction" && t in {"extraction:gliner2", "model:gliner2-base-v1"})
  {
    MergeShape(m.tags, BuiltinTags(name) + nodeTags);
  }

  /** Every tag the add brings, and no tag that was there, is in the list the remove strips. */
  predicate Reversible(m: Manifest, name: string, nodeTags: seq<string>, catalogTags: seq<string>) {
    && !HasService(m, name)
    && (forall t :: t in m.tags ==> t !in catalogTags)
    && (forall t :: t in BuiltinTags(name) + nodeTags && t != "" && t !in m.tags ==> t in catalogTags)
  }

  /** Remove after add gives the manifest back, services and tags in order, exactly when the add is reversible. */
  lemma {:induction false} AddRemoveIff(m: Manifest, name: string, nodeTags: seq<string>, catalogTags: seq<string>)
    ensures Removed(Added(m, name, nodeTags), name, catalogTags) == m <==> Reversible(m, name, nodeTags, catalogTags)
  {
    var added := Added(m, name, nodeTags);
    var out := Removed(added, name, catalogTags);
    WithoutShape(added.services, name);
    if HasService(m, name) {
      var i :| 0 <= i < |m.services| && m.services[i].name == name;
      assert m.services[i] in m.services && m.services[i] !in out.services;
    } else {
      WithoutShape(m.services, name);
      assert added.services[..|m.services|] == m.services;
      assert out.services == m.services;
      TagsBackIff(m.tags, BuiltinTags(name) + nodeTags, catalogTags);
    }
  }

  lemma {:induction false} TagsBackIff(tags: seq<string>, more: seq<string>, remove: seq<string>)
    ensures Strip(MergeTags(tags, more), remove) == tags <==>
              && (forall t :: t in tags ==> t !in remove)
              && (forall t :: t in more && t != "" && t !in tags ==> t in remove)
  {
    var merged := MergeTags(tags, more);
    MergeShape(tags, more);
    var extra := merged[|tags|..];
    assert merged == tags + extra;
    StripConcat(tags, extra, remove);
    StripShape(tags, remove);
    StripShape(extra, remove);
    StripNothing(tags, remove);
    assert forall t :: t in extra <==> t in more && t != "" && t !in tags;
    var a, b := Strip(tags, remove), Strip(extra, remove);
    assert forall t :: t in b ==> t in a + b && t !in tags;
    assert b == [] || b[0] in b;
  }

  /** Setting a status touches that one service's status and nothing else, and fails only on an unknown name. */
  lemma {:induction false} StatusTouchesOne(m: Manifest, name: string, status: string)
    requires UniqueNames(m.services)
    ensures WithStatus(m, name, status).None? <==> !HasService(m, name)
    ensures WithStatus(m, name, status).Some? ==>
              var m' := WithStatus(m, name, status).value;
              && m'.tags == m.tags && |m'.services| == |m.services|
              && forall i :: 0 <= i < |m.services| ==>
                   var a := m.services[i]; m'.services[i] == if a.name == name then a.(desiredStatus := status) else a
  {
  }
}
