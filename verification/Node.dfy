/** A node's persistent state and the atomic effects module operations have on it. */
module Node {
  import opened Prelude
  import opened Manifest
  import opened ModuleConfig

  datatype LockEntry = LockEntry(name: string, source: string, ref: string, commit: string, config: Config)

  /** What an install materialises for a module: the compose of a commit, and the values of its env file. */
  datatype Files = Files(commit: string, env: Config)

  /**
   The manifest and files of the node's directory, the lockfile, and the containers. `home` holds the files
   in ~/citadel-node where the node's directory is another one or none is configured. A manifest there does
   not matter: one is always written before the node is pointed there.
   */
  datatype Node = Node(
    manifest: Option<Manifest>,
    lock: seq<LockEntry>,
    files: map<string, Files>,
    up: set<string>,
    home: Option<map<string, Files>>)

  const EMPTY := Manifest([], [])

  /** One write or container action; a crash falls between two of them. */
  datatype Effect =
    | EmptyHome
    | PointHome
    | Edit(op: Op)
    | PutLock(entry: LockEntry)
    | DropLock(name: string)
    | PutFiles(name: string, commit: string, recipe: Recipe)
    | DropFiles(name: string)
    | Up(name: string)
    | Down(name: string)

  /** UpsertLockEntry: replace the first entry of that name, or append. */
  function Upserted(lock: seq<LockEntry>, e: LockEntry): seq<LockEntry> {
    if lock == [] then [e]
    else if lock[0].name == e.name then [e] + lock[1..]
    else [lock[0]] + Upserted(lock[1..], e)
  }

  function LockWithout(lock: seq<LockEntry>, name: string): seq<LockEntry> {
    if lock == [] then []
    else if lock[0].name == name then LockWithout(lock[1..], name)
    else [lock[0]] + LockWithout(lock[1..], name)
  }

  /** LookupLock: the first entry of the name. */
  function Lookup(lock: seq<LockEntry>, name: string): Option<LockEntry> {
    if lock == [] then None else if lock[0].name == name then Some(lock[0]) else Lookup(lock[1..], name)
  }

  function FilesOf(files: map<string, Files>, name: string): Option<Files> {
    if name in files then Some(files[name]) else None
  }

  function EnvOf(f: Option<Files>): Config {
    if f.Some? then f.value.env else map[]
  }

  /** The compose is copied; the env file is written only if there is anything to put in it. */
  function Materialised(was: Option<Files>, commit: string, rc: Recipe): Files {
    var filled := Filled(rc, EnvOf(was));
    Files(commit, if filled == map[] then EnvOf(was) else filled)
  }

  function Perform(n: Node, e: Effect): Node {
    match e
    case EmptyHome => if n.home.None? then n.(manifest := Some(EMPTY)) else n
    case PointHome =>
      if n.home.None? then n else n.(manifest := Some(EMPTY), files := n.home.value, home := None)
    case Edit(op) => if n.manifest.Some? then n.(manifest := Some(Apply(n.manifest.value, op))) else n
    case PutLock(entry) => n.(lock := Upserted(n.lock, entry))
    case DropLock(name) => n.(lock := LockWithout(n.lock, name))
    case PutFiles(name, commit, rc) =>
      n.(files := n.files[name := Materialised(FilesOf(n.files, name), commit, rc)])
    case DropFiles(name) => n.(files := n.files - {name})
    case Up(name) => n.(up := n.up + {name})
    case Down(name) => n.(up := n.up - {name})
  }

  function PerformAll(n: Node, effects: seq<Effect>): Node
    decreases |effects|
  {
    if effects == [] then n else PerformAll(Perform(n, effects[0]), effects[1..])
  }

  lemma {:induction false} PerformConcat(n: Node, a: seq<Effect>, b: seq<Effect>)
    ensures PerformAll(n, a + b) == PerformAll(PerformAll(n, a), b)
    decreases |a|
  {
    if a == [] {
      assert a + b == b;
    } else {
      assert (a + b)[1..] == a[1..] + b;
      PerformConcat(Perform(n, a[0]), a[1..], b);
    }
  }

  // ---- the state of one service ----

  /** The manifest's entry for a name, if it has one. */
  function ServiceOf(n: Node, name: string): Option<Service> {
    if n.manifest.None? then None
    else
      var k := FirstNamed(n.manifest.value.services, name);
      if k == |n.manifest.value.services| then None else Some(n.manifest.value.services[k])
  }

  datatype View = View(service: Option<Service>, lock: Option<LockEntry>, files: Option<Files>, running: bool)

  /** Everything the node holds about one service. */
  function ViewOf(n: Node, name: string): View {
    View(ServiceOf(n, name), Lookup(n.lock, name), FilesOf(n.files, name), name in n.up)
  }

  predicate About(e: Effect, name: string) {
    match e
    case EmptyHome => false
    case PointHome => false
    case Edit(op) => op.name == name
    case PutLock(entry) => entry.name == name
    case DropLock(x) => x == name
    case PutFiles(x, _, _) => x == name
    case DropFiles(x) => x == name
    case Up(x) => x == name
    case Down(x) => x == name
  }

  lemma {:induction false} LockFrame(lock: seq<LockEntry>, e: LockEntry, name: string)
    ensures name != e.name ==> Lookup(Upserted(lock, e), name) == Lookup(lock, name)
    ensures Lookup(Upserted(lock, e), e.name) == Some(e)
    ensures Lookup(LockWithout(lock, e.name), name) == if name == e.name then None else Lookup(lock, name)
  {
    if lock != [] {
      LockFrame(lock[1..], e, name);
      assert ([e] + lock[1..])[1..] == lock[1..];
      assert ([lock[0]] + Upserted(lock[1..], e))[1..] == Upserted(lock[1..], e);
      assert ([lock[0]] + LockWithout(lock[1..], e.name))[1..] == LockWithout(lock[1..], e.name);
    }
  }

  lemma {:induction false} FirstIs(services: seq<Service>, name: string, k: nat)
    requires k <= |services| && (k < |services| ==> services[k].name == name)
    requires forall i :: 0 <= i < k ==> services[i].name != name
    ensures FirstNamed(services, name) == k
  {
  }

  lemma {:induction false} WithoutFirst(services: seq<Service>, gone: string, name: string)
    requires name != gone
    ensures SameEntry(services, Without(services, gone), name)
  {
    if services != [] {
      var init, s := services[..|services| - 1], services[|services| - 1];
      WithoutFirst(init, gone, name);
      var kept := Without(init, gone);
      assert (kept + [s])[..|kept|] == kept;
    }
  }

  lemma {:induction false} WithoutNone(services: seq<Service>, name: string)
    ensures FirstNamed(Without(services, name), name) == |Without(services, name)|
  {
    WithoutShape(services, name);
    var kept := Without(services, name);
    forall i | 0 <= i < |kept| ensures kept[i].name != name { assert kept[i] in kept; }
  }

  /** The entry of a name is the same in both lists. */
  predicate SameEntry(a: seq<Service>, b: seq<Service>, name: string) {
    var i, j := FirstNamed(a, name), FirstNamed(b, name);
    (i == |a| <==> j == |b|) && (i < |a| && j < |b| ==> a[i] == b[j])
  }

  lemma {:induction false} AppendFrame(a: seq<Service>, s: Service, name: string)
    requires s.name != name
    ensures SameEntry(a, a + [s], name)
  {
    var i, b := FirstNamed(a, name), a + [s];
    FirstIs(b, name, if i < |a| then i else |b|);
  }

  lemma {:induction false} StatusFrame(a: seq<Service>, k: nat, s: Service, name: string)
    requires k < |a| && a[k].name == s.name != name
    ensures SameEntry(a, a[k := s], name)
  {
    FirstIs(a[k := s], name, FirstNamed(a, name));
  }

  lemma {:induction false} EditFrame(m: Manifest, op: Op, name: string)
    requires op.name != name
    ensures SameEntry(m.services, Apply(m, op).services, name)
  {
    var a := m.services;
    match op
    case Add(x, tags) => if !HasService(m, x) { AppendFrame(a, Service(x, "", ComposeRel(x), 0, ""), name); }
    case Remove(x, tags) => WithoutFirst(a, x, name);
    case SetStatus(x, status) =>
      var k := FirstNamed(a, x);
      if k < |a| { StatusFrame(a, k, a[k].(desiredStatus := status), name); }
  }

  /** An effect about one service leaves everything the node holds about any other alone. */
  lemma {:induction false} EffectFrame(n: Node, e: Effect, name: string, other: string)
    requires About(e, name) && other != name
    ensures ViewOf(Perform(n, e), other) == ViewOf(n, other)
  {
    match e
    case Edit(op) => if n.manifest.Some? { EditFrame(n.manifest.value, op, other); }
    case PutLock(entry) => LockFrame(n.lock, entry, other);
    case DropLock(x) => LockFrame(n.lock, LockEntry(x, "", "", "", map[]), other);
    case _ =>
  }

  /** Whole effect sequences about one service, cut anywhere, leave every other alone. */
  lemma {:induction false} EffectsFrame(n: Node, effects: seq<Effect>, name: string, other: string, k: nat)
    requires k <= |effects| && other != name && forall e :: e in effects ==> About(e, name)
    ensures ViewOf(PerformAll(n, effects[..k]), other) == ViewOf(n, other)
    decreases k
  {
    if k > 0 {
      EffectFrame(n, effects[0], name, other);
      assert effects[..k][1..] == effects[1..][..k - 1];
      EffectsFrame(Perform(n, effects[0]), effects[1..], name, other, k - 1);
    }
  }
}
