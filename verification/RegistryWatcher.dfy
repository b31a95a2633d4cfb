/**
 The provisioned-module registry and the gateway routes that follow it.

 The registry file is the source of truth. An in-process exposer writes it and then wires the route
 itself; other processes only write it; a watcher polls it and wires what differs from `known`, its
 memory of what it wired last. All of them interleave.
 */
module RegistryWatcher {
  import opened Prelude

  datatype Entry = Entry(name: string, prefix: string, port: int)

  predicate UniquePrefixes(reg: seq<Entry>) {
    forall i, j :: 0 <= i < j < |reg| ==> reg[i].prefix != reg[j].prefix
  }

  /** The watcher between ticks, at entry `i` of the list it read, or about to note that entry in `known`. */
  datatype Pc = Waiting | At(entries: seq<Entry>, i: nat) | Noting(entries: seq<Entry>, i: nat)

  datatype World = World(
    reg: seq<Entry>,
    routes: map<string, int>,
    known: map<string, int>,
    wiring: map<string, int>,
    pc: Pc)

  datatype Step =
    | Register(e: Entry)
    | Wire(prefix: string)
    | OutsideWrite(reg: seq<Entry>)
    | List(ok: bool)
    | Watch

  /** The entry of `prefix` is the same in both lists. */
  ghost predicate SameEntry(a: seq<Entry>, b: seq<Entry>, prefix: string) {
    forall port :: Records(a, prefix, port) <==> Records(b, prefix, port)
  }

  predicate Records(reg: seq<Entry>, prefix: string, port: int) {
    exists i :: 0 <= i < |reg| && reg[i].prefix == prefix && reg[i].port == port
  }

  /** Registry.Register: replace the entry of that name, or append. */
  function Registered(reg: seq<Entry>, e: Entry): (r: seq<Entry>)
    ensures e in r
    ensures forall x :: x in r ==> x == e || x in reg
    ensures forall x :: x in reg && x.name != e.name ==> x in r
  {
    if reg == [] then [e]
    else if reg[0].name == e.name then [e] + reg[1..]
    else [reg[0]] + Registered(reg[1..], e)
  }

  /** Exposures of one prefix are serialised: nobody rewrites a prefix whose exposer has not wired it yet. */
  ghost predicate Enabled(w: World, st: Step) {
    match st
    case Register(e) =>
      && e.prefix !in w.wiring && UniquePrefixes(Registered(w.reg, e))
      && forall p :: p in w.wiring ==> SameEntry(w.reg, Registered(w.reg, e), p)
    case Wire(prefix) => prefix in w.wiring
    case OutsideWrite(reg) => UniquePrefixes(reg) && forall p :: p in w.wiring ==> SameEntry(w.reg, reg, p)
    case List(_) => w.pc.Waiting?
    case Watch => !w.pc.Waiting?
  }

  function Do(w: World, st: Step): World
    requires Enabled(w, st)
  {
    match st
    case Register(e) => w.(reg := Registered(w.reg, e), wiring := w.wiring[e.prefix := e.port])
    case Wire(prefix) => w.(routes := w.routes[prefix := w.wiring[prefix]], wiring := w.wiring - {prefix})
    case OutsideWrite(reg) => w.(reg := reg)
    case List(ok) => if ok then w.(pc := At(w.reg, 0)) else w
    case Watch => WatchStep(w)
  }

  function WatchStep(w: World): World
    requires !w.pc.Waiting?
  {
    var entries, i := w.pc.entries, w.pc.i;
    if i >= |entries| then w.(pc := Waiting)
    else
      var e := entries[i];
      match w.pc
      case At(_, _) =>
        if e.prefix in w.known && w.known[e.prefix] == e.port then w.(pc := At(entries, i + 1))
        else w.(routes := if e.port > 0 then w.routes[e.prefix := e.port] else w.routes, pc := Noting(entries, i))
      case Noting(_, _) => w.(known := w.known[e.prefix := e.port], pc := At(entries, i + 1))
  }

  ghost predicate IsRun(ws: seq<World>, steps: seq<Step>) {
    && |ws| == |steps| + 1
    && forall i :: 0 <= i < |steps| ==> Enabled(ws[i], steps[i]) && ws[i + 1] == Do(ws[i], steps[i])
  }

  // ---- why the watcher catches up ----

  predicate Routed(w: World, prefix: string, port: int) {
    prefix in w.routes && w.routes[prefix] == port
  }

  /** The watcher's memory of a prefix, counting the note it is about to make. */
  function Belief(w: World, prefix: string): Option<int> {
    if w.pc.Noting? && w.pc.i < |w.pc.entries| && w.pc.entries[w.pc.i].prefix == prefix
    then Some(w.pc.entries[w.pc.i].port)
    else if prefix in w.known then Some(w.known[prefix]) else None
  }

  /** Every recorded port is routed, about to be wired by its exposer, or news to the watcher. */
  ghost predicate Inv(w: World) {
    && UniquePrefixes(w.reg)
    && (forall p :: p in w.wiring ==> Records(w.reg, p, w.wiring[p]))
    && (forall p, q :: Records(w.reg, p, q) && q > 0 ==>
          Routed(w, p, q) || p in w.wiring || Belief(w, p) != Some(q))
  }

  /** An outside write is seen: it never puts back the port the watcher remembers behind a changed route. */
  ghost predicate Seen(w: World, st: Step) {
    st.OutsideWrite? ==> forall p, q :: Records(st.reg, p, q) && q > 0 && !Records(w.reg, p, q) ==>
      Routed(w, p, q) || Belief(w, p) != Some(q)
  }

  lemma {:induction false} RecordsOne(reg: seq<Entry>, p: string, q: int, r: int)
    requires UniquePrefixes(reg) && Records(reg, p, q) && Records(reg, p, r)
    ensures q == r
  {
  }

  lemma {:induction false} RegisteredRecords(reg: seq<Entry>, e: Entry, p: string, q: int)
    requires UniquePrefixes(Registered(reg, e))
    ensures Records(Registered(reg, e), e.prefix, e.port)
    ensures p != e.prefix && Records(Registered(reg, e), p, q) ==> Records(reg, p, q)
    ensures p == e.prefix && Records(Registered(reg, e), p, q) ==> q == e.port
  {
    var out := Registered(reg, e);
    assert e in out;
    var k :| 0 <= k < |out| && out[k] == e;
    assert out[k].prefix == e.prefix && out[k].port == e.port;
    if Records(out, p, q) {
      var i :| 0 <= i < |out| && out[i].prefix == p && out[i].port == q;
      assert out[i] in out;
      if p != e.prefix { var j :| 0 <= j < |reg| && reg[j] == out[i]; }
    }
  }

  lemma {:induction false} InvStep(w: World, st: Step)
    requires Inv(w) && Enabled(w, st) && Seen(w, st)
    ensures Inv(Do(w, st))
  {
    var w' := Do(w, st);
    match st
    case Register(e) =>
      forall p, q ensures p != e.prefix && Records(w'.reg, p, q) ==> Records(w.reg, p, q)
                  ensures Records(w'.reg, e.prefix, e.port)
      {
        RegisteredRecords(w.reg, e, p, q);
      }
      forall p, q | Records(w'.reg, p, q) && q > 0
        ensures Routed(w', p, q) || p in w'.wiring || Belief(w', p) != Some(q)
      {
        if p != e.prefix { assert Records(w.reg, p, q); }
      }
    case Wire(prefix) =>
      forall p, q | Records(w'.reg, p, q) && q > 0
        ensures Routed(w', p, q) || p in w'.wiring || Belief(w', p) != Some(q)
      {
        if p == prefix { RecordsOne(w.reg, p, q, w.wiring[p]); }
      }
    case OutsideWrite(reg) =>
    case List(ok) =>
    case Watch => WatchKeeps(w);
  }

  lemma {:induction false} WatchKeeps(w: World)
    requires Inv(w) && !w.pc.Waiting?
    ensures Inv(WatchStep(w))
  {
    var w' := WatchStep(w);
    forall p, q | Records(w'.reg, p, q) && q > 0
      ensures Routed(w', p, q) || p in w'.wiring || Belief(w', p) != Some(q)
    {
      assert Records(w.reg, p, q);
    }
  }

  lemma {:induction false} InvRun(ws: seq<World>, steps: seq<Step>, i: nat)
    requires IsRun(ws, steps) && Inv(ws[0]) && i < |ws|
    requires forall k :: 0 <= k < i ==> Seen(ws[k], steps[k])
    ensures Inv(ws[i])
  {
    if i > 0 {
      InvRun(ws, steps, i - 1);
      InvStep(ws[i - 1], steps[i - 1]);
    }
  }

  predicate Writes(st: Step) {
    st.Register? || st.OutsideWrite?
  }

  /** The route is right, or its exposer is about to make it so. */
  predicate Settled(w: World, e: Entry) {
    e.port > 0 ==> Routed(w, e.prefix, e.port) || e.prefix in w.wiring
  }

  /** How far the tick that read the present registry has settled the routes. */
  ghost predicate Settling(w: World) {
    if w.pc.Waiting? then forall k :: 0 <= k < |w.reg| ==> Settled(w, w.reg[k])
    else
      && w.pc.entries == w.reg
      && (forall k :: 0 <= k < w.pc.i && k < |w.reg| ==> Settled(w, w.reg[k]))
      && (w.pc.Noting? && w.pc.i < |w.reg| ==> Settled(w, w.reg[w.pc.i]))
  }

  lemma {:induction false} SettlingStep(w: World, st: Step)
    requires Inv(w) && Enabled(w, st) && Settling(w) && !Writes(st)
    ensures Settling(Do(w, st))
  {
    var w' := Do(w, st);
    match st
    case Wire(prefix) =>
      forall k | 0 <= k < |w.reg| && Settled(w, w.reg[k]) ensures Settled(w', w.reg[k]) {
        if w.reg[k].prefix == prefix {
          assert Records(w.reg, prefix, w.reg[k].port);
          RecordsOne(w.reg, prefix, w.reg[k].port, w.wiring[prefix]);
        }
      }
    case List(ok) =>
    case Watch =>
      if w.pc.i < |w.reg| {
        var e := w.reg[w.pc.i];
        assert Records(w.reg, e.prefix, e.port);
      }
  }

  lemma {:induction false} ListSettles(w: World)
    requires Enabled(w, List(true))
    ensures Settling(Do(w, List(true)))
  {
  }

  lemma {:induction false} SettledAll(w: World, e: Entry)
    requires Settling(w) && w.pc.Waiting? && e in w.reg
    ensures Settled(w, e)
  {
    var i :| 0 <= i < |w.reg| && w.reg[i] == e;
  }

  lemma {:induction false} InvAt(ws: seq<World>, steps: seq<Step>, k: nat, j: nat)
    requires IsRun(ws, steps) && Inv(ws[0]) && k <= j < |ws|
    requires (forall i :: 0 <= i < k ==> Seen(ws[i], steps[i])) && forall i :: k <= i < j ==> !Writes(steps[i])
    ensures Inv(ws[j])
  {
    forall i | 0 <= i < j ensures Seen(ws[i], steps[i]) {
      if i >= k { assert !Writes(steps[i]); }
    }
    InvRun(ws, steps, j);
  }

  lemma {:induction false} SettlingRun(ws: seq<World>, steps: seq<Step>, k: nat, j: nat)
    requires IsRun(ws, steps) && Inv(ws[0]) && k < j < |ws| && steps[k] == List(true)
    requires (forall i :: 0 <= i < k ==> Seen(ws[i], steps[i])) && forall i :: k <= i < j ==> !Writes(steps[i])
    ensures Settling(ws[j])
    decreases j
  {
    if j == k + 1 {
      ListSettles(ws[k]);
    } else {
      SettlingRun(ws, steps, k, j - 1);
      InvAt(ws, steps, k, j - 1);
      SettlingStep(ws[j - 1], steps[j - 1]);
    }
  }

  /**
   Convergence. The watcher reads the registry at step `k` and no write follows up to `j`. With exposers
   and the watcher interleaved in any way, whenever the watcher has finished a tick, every positive-port
   entry whose exposer is not still wiring it has its route on the recorded port.
   */
  lemma {:induction false} TickConverges(ws: seq<World>, steps: seq<Step>, k: nat, j: nat)
    requires IsRun(ws, steps) && Inv(ws[0]) && k < j < |ws| && steps[k] == List(true)
    requires (forall i :: 0 <= i < k ==> Seen(ws[i], steps[i])) && forall i :: k <= i < j ==> !Writes(steps[i])
    ensures ws[j].pc.Waiting? ==> forall e :: e in ws[j].reg && e.port > 0 && e.prefix !in ws[j].wiring ==>
              Routed(ws[j], e.prefix, e.port)
  {
    SettlingRun(ws, steps, k, j);
    if ws[j].pc.Waiting? {
      forall e | e in ws[j].reg ensures Settled(ws[j], e) { SettledAll(ws[j], e); }
    }
  }

  /** The routes wired and the memory seeded at startup. */
  function Wired(reg: seq<Entry>): map<string, int> {
    if reg == [] then map[]
    else if reg[|reg| - 1].port > 0 then Wired(reg[..|reg| - 1])[reg[|reg| - 1].prefix := reg[|reg| - 1].port]
    else Wired(reg[..|reg| - 1])
  }

  function Noted(reg: seq<Entry>): map<string, int> {
    if reg == [] then map[] else Noted(reg[..|reg| - 1])[reg[|reg| - 1].prefix := reg[|reg| - 1].port]
  }

  lemma {:induction false} WiredAt(reg: seq<Entry>, i: nat)
    requires UniquePrefixes(reg) && i < |reg| && reg[i].port > 0
    ensures reg[i].prefix in Wired(reg) && Wired(reg)[reg[i].prefix] == reg[i].port
  {
    if i < |reg| - 1 { WiredAt(reg[..|reg| - 1], i); }
  }

  /** Startup wires nothing but recorded positive ports. */
  lemma {:induction false} WiredOnly(reg: seq<Entry>, p: string)
    requires p in Wired(reg)
    ensures Wired(reg)[p] > 0 && Records(reg, p, Wired(reg)[p])
  {
    var init, e := reg[..|reg| - 1], reg[|reg| - 1];
    if e.port > 0 && e.prefix == p {
      assert reg[|reg| - 1] == e;
    } else {
      WiredOnly(init, p);
      var i :| 0 <= i < |init| && init[i].prefix == p && init[i].port == Wired(init)[p];
      assert reg[i] == init[i];
    }
  }

  lemma {:induction false} NotedAt(reg: seq<Entry>, i: nat)
    requires UniquePrefixes(reg) && i < |reg|
    ensures reg[i].prefix in Noted(reg) && Noted(reg)[reg[i].prefix] == reg[i].port
  {
    if i < |reg| - 1 { NotedAt(reg[..|reg| - 1], i); }
  }

  /** The watcher's first read fills its memory, if it succeeds. */
  function Seeded(w: World, ok: bool): World {
    if ok then w.(known := Noted(w.reg)) else w
  }

  /** Before there is a watcher: one entry a prefix, and exposers wire what they have recorded. */
  ghost predicate Unwatched(w: World) {
    UniquePrefixes(w.reg) && w.known == map[] && w.pc == Waiting &&
    forall p :: p in w.wiring ==> Records(w.reg, p, w.wiring[p])
  }

  /** Every recorded positive port is routed, or about to be wired by its exposer. */
  ghost predicate AllWired(w: World) {
    forall p, q :: Records(w.reg, p, q) && q > 0 ==> Routed(w, p, q) || p in w.wiring
  }

  /** The watcher starts sound exactly when its seed failed or found nothing that is not wired. */
  lemma {:induction false} SeedIff(w: World, ok: bool)
    requires Unwatched(w)
    ensures Inv(Seeded(w, ok)) <==> !ok || AllWired(w)
  {
    var w' := Seeded(w, ok);
    if ok {
      forall p, q | Records(w.reg, p, q) ensures Belief(w', p) == Some(q) {
        var i :| 0 <= i < |w.reg| && w.reg[i].prefix == p && w.reg[i].port == q;
        NotedAt(w.reg, i);
      }
      assert forall p, q :: Routed(w', p, q) <==> Routed(w, p, q);
    }
  }

  lemma {:induction false} WiredStep(w: World, st: Step)
    requires Unwatched(w) && AllWired(w) && Enabled(w, st) && (st.Register? || st.Wire?)
    ensures Unwatched(Do(w, st)) && AllWired(Do(w, st))
  {
    var w' := Do(w, st);
    match st
    case Register(e) =>
      forall p, q ensures p != e.prefix && Records(w'.reg, p, q) ==> Records(w.reg, p, q)
                  ensures Records(w'.reg, e.prefix, e.port)
      {
        RegisteredRecords(w.reg, e, p, q);
      }
    case Wire(prefix) =>
      forall p, q | Records(w'.reg, p, q) && q > 0 ensures Routed(w', p, q) || p in w'.wiring {
        if p == prefix { RecordsOne(w.reg, p, q, w.wiring[p]); }
      }
  }

  /** The gateway after startup wiring of the registry it read, or of nothing if the read failed. */
  function Started(reg: seq<Entry>, readOk: bool): World {
    World(reg, if readOk then Wired(reg) else map[], map[], map[], Waiting)
  }

  lemma {:induction false} WiredRun(ws: seq<World>, steps: seq<Step>, i: nat)
    requires IsRun(ws, steps) && UniquePrefixes(ws[0].reg) && ws[0] == Started(ws[0].reg, true) && i < |ws|
    requires forall k :: 0 <= k < |steps| ==> steps[k].Register? || steps[k].Wire?
    ensures Unwatched(ws[i]) && AllWired(ws[i])
  {
    if i == 0 {
      forall p, q | Records(ws[0].reg, p, q) && q > 0 ensures Routed(ws[0], p, q) {
        var k :| 0 <= k < |ws[0].reg| && ws[0].reg[k].prefix == p && ws[0].reg[k].port == q;
        WiredAt(ws[0].reg, k);
      }
    } else {
      WiredRun(ws, steps, i - 1);
      WiredStep(ws[i - 1], steps[i - 1]);
    }
  }

  /**
   From startup wiring to the watcher's seed, in-process exposers registering and wiring in between as
   they like: the watcher starts sound, whether its first read succeeds or not.
   */
  lemma {:induction false} StartupInv(ws: seq<World>, steps: seq<Step>, seedOk: bool)
    requires IsRun(ws, steps) && UniquePrefixes(ws[0].reg) && ws[0] == Started(ws[0].reg, true)
    requires forall k :: 0 <= k < |steps| ==> steps[k].Register? || steps[k].Wire?
    ensures Inv(Seeded(ws[|steps|], seedOk))
  {
    WiredRun(ws, steps, |steps|);
    SeedIff(ws[|steps|], seedOk);
  }

  /**
   The whole of it: from startup wiring over in-process exposures to the watcher's seed, then over any
   run of exposures, seen outside writes and ticks to a tick that read the registry after the last
   write. Every recorded positive port that is not still being wired has its route.
   */
  lemma {:induction false} StartupConverges(boot: seq<World>, bootSteps: seq<Step>, seedOk: bool,
                                            ws: seq<World>, steps: seq<Step>, k: nat, j: nat, e: Entry)
    requires IsRun(boot, bootSteps) && UniquePrefixes(boot[0].reg) && boot[0] == Started(boot[0].reg, true)
    requires forall i :: 0 <= i < |bootSteps| ==> bootSteps[i].Register? || bootSteps[i].Wire?
    requires IsRun(ws, steps) && ws[0] == Seeded(boot[|bootSteps|], seedOk) && k < j < |ws| && steps[k] == List(true)
    requires (forall i :: 0 <= i < k ==> Seen(ws[i], steps[i])) && forall i :: k <= i < j ==> !Writes(steps[i])
    requires ws[j].pc.Waiting? && e in ws[j].reg && e.port > 0 && e.prefix !in ws[j].wiring
    ensures Routed(ws[j], e.prefix, e.port)
  {
    StartupInv(boot, bootSteps, seedOk);
    TickConverges(ws, steps, k, j);
  }

  // ---- a seed that hides what is not wired ----

  /** The step leaves the record and the wiring of `prefix` alone. */
  ghost predicate Spares(w: World, st: Step, prefix: string) {
    match st
    case Register(e) => e.prefix != prefix && SameEntry(w.reg, Registered(w.reg, e), prefix)
    case Wire(p) => p != prefix
    case OutsideWrite(reg) => SameEntry(w.reg, reg, prefix)
    case _ => true
  }

  /** The port is recorded and not routed, and the watcher remembers it as wired. */
  ghost predicate Hidden(w: World, prefix: string, port: int) {
    && UniquePrefixes(w.reg) && Records(w.reg, prefix, port) && !Routed(w, prefix, port) && prefix !in w.wiring
    && prefix in w.known && w.known[prefix] == port
    && (!w.pc.Waiting? ==>
          forall k :: 0 <= k < |w.pc.entries| && w.pc.entries[k].prefix == prefix ==> w.pc.entries[k].port == port)
  }

  lemma {:induction false} HiddenStep(w: World, st: Step, prefix: string, port: int)
    requires Hidden(w, prefix, port) && Enabled(w, st) && Spares(w, st, prefix)
    ensures Hidden(Do(w, st), prefix, port)
  {
    match st
    case Register(e) =>
    case Wire(p) =>
    case OutsideWrite(reg) =>
    case Watch =>
    case List(ok) =>
      forall k | 0 <= k < |w.reg| && w.reg[k].prefix == prefix ensures w.reg[k].port == port {
        assert Records(w.reg, prefix, w.reg[k].port);
        RecordsOne(w.reg, prefix, w.reg[k].port, port);
      }
  }

  lemma {:induction false} HiddenRun(ws: seq<World>, steps: seq<Step>, i: nat, prefix: string, port: int)
    requires IsRun(ws, steps) && Hidden(ws[0], prefix, port) && i < |ws|
    requires forall k :: 0 <= k < |steps| ==> Spares(ws[k], steps[k], prefix)
    ensures Hidden(ws[i], prefix, port)
  {
    if i > 0 {
      HiddenRun(ws, steps, i - 1, prefix, port);
      HiddenStep(ws[i - 1], steps[i - 1], prefix, port);
    }
  }

  /**
   A failed startup read followed by a successful seed: over every run that neither writes nor wires its
   prefix, however many ticks it has, a recorded port stays unrouted.
   */
  lemma {:induction false} SeedHidesUnwired(ws: seq<World>, steps: seq<Step>, i: nat, e: Entry)
    requires IsRun(ws, steps) && UniquePrefixes(ws[0].reg) && e in ws[0].reg && e.port > 0 && i < |ws|
    requires ws[0] == Seeded(Started(ws[0].reg, false), true)
    requires forall k :: 0 <= k < |steps| ==> Spares(ws[k], steps[k], e.prefix)
    ensures !Inv(ws[0]) && !Routed(ws[i], e.prefix, e.port)
  {
    var reg := ws[0].reg;
    var w := Started(reg, false);
    var k :| 0 <= k < |reg| && reg[k] == e;
    assert Records(reg, e.prefix, e.port) && !Routed(w, e.prefix, e.port);
    SeedIff(w, true);
    NotedAt(reg, k);
    HiddenRun(ws, steps, i, e.prefix, e.port);
  }

  // ---- the code ----

  class Watcher {
    var routes: map<string, int>
    var known: map<string, int>

    constructor ()
      ensures routes == map[] && known == map[]
    {
      routes, known := map[], map[];
    }

    /** Startup wiring. */
    method RegisterRoutes(entries: seq<Entry>)
      modifies this`routes
      ensures routes == old(routes) + Wired(entries)
    {
      for i := 0 to |entries|
        invariant routes == old(routes) + Wired(entries[..i])
      {
        assert entries[..i + 1][..i] == entries[..i];
        if entries[i].port > 0 { routes := routes[entries[i].prefix := entries[i].port]; }
      }
      assert entries[..|entries|] == entries;
    }

    /** The watcher's first read. */
    method Seed(entries: seq<Entry>)
      modifies this`known
      ensures known == old(known) + Noted(entries)
    {
      for i := 0 to |entries|
        invariant known == old(known) + Noted(entries[..i])
      {
        assert entries[..i + 1][..i] == entries[..i];
        known := known[entries[i].prefix := entries[i].port];
      }
      assert entries[..|entries|] == entries;
    }

    /** The watcher at entry `i` of the list it read, nobody else moving. */
    ghost function Here(entries: seq<Entry>, i: nat): World
      reads this
    {
      World(entries, routes, known, map[], At(entries, i))
    }

    /** One tick over the list just read is the tick of the model, run alone. */
    method Tick(entries: seq<Entry>)
      modifies this
      ensures var w := TickAlone(World(entries, old(routes), old(known), map[], At(entries, 0)));
              routes == w.routes && known == w.known
    {
      ghost var end := TickAlone(Here(entries, 0));
      for i := 0 to |entries|
        invariant TickAlone(Here(entries, i)) == end
      {
        var e := entries[i];
        ghost var w := Here(entries, i);
        assert TickAlone(w) == TickAlone(PastEntry(w));
        if e.prefix in known && known[e.prefix] == e.port { continue; }
        if e.port > 0 { routes := routes[e.prefix := e.port]; }
        known := known[e.prefix := e.port];
        assert PastEntry(w) == Here(entries, i + 1);
      }
      assert TickAlone(Here(entries, |entries|)) == Here(entries, |entries|).(pc := Waiting);
    }
  }

  // ---- where it does not catch up ----

  /** The watcher runs to the end of its tick with nobody else moving. */
  function TickAlone(w: World): World
    decreases if w.pc.Waiting? then 0 else if w.pc.i >= |w.pc.entries| then 1
              else 2 * (|w.pc.entries| - w.pc.i) + (if w.pc.At? then 2 else 1)
  {
    if w.pc.Waiting? then w else TickAlone(WatchStep(w))
  }

  /** The watcher past entry `i`: skipped, or wired and noted. */
  function PastEntry(w: World): World
    requires w.pc.At? && w.pc.i < |w.pc.entries|
  {
    if WatchStep(w).pc.At? then WatchStep(w) else WatchStep(WatchStep(w))
  }

  lemma {:induction false} TickAloneKeeps(w: World, p: string, q: int)
    requires w.pc.At? && forall k :: w.pc.i <= k < |w.pc.entries| ==> w.pc.entries[k].prefix != p
    ensures Routed(TickAlone(w), p, q) <==> Routed(w, p, q)
    decreases |w.pc.entries| - w.pc.i
  {
    if w.pc.i < |w.pc.entries| {
      assert TickAlone(w) == TickAlone(PastEntry(w));
      TickAloneKeeps(PastEntry(w), p, q);
    } else {
      assert TickAlone(w) == WatchStep(w);
    }
  }

  /** A tick leaves the route of a prefix alone that the list has no positive port for. */
  lemma {:induction false} TickAloneSkips(w: World, p: string)
    requires w.pc.At? && forall k :: w.pc.i <= k < |w.pc.entries| && w.pc.entries[k].prefix == p ==>
               w.pc.entries[k].port <= 0
    ensures p in TickAlone(w).routes <==> p in w.routes
    ensures p in w.routes ==> TickAlone(w).routes[p] == w.routes[p]
    decreases |w.pc.entries| - w.pc.i
  {
    if w.pc.i < |w.pc.entries| {
      assert TickAlone(w) == TickAlone(PastEntry(w));
      TickAloneSkips(PastEntry(w), p);
    } else {
      assert TickAlone(w) == WatchStep(w);
    }
  }

  /** A route a step of the watcher changes is on a positive port of the list it has read. */
  lemma {:induction false} WatchRoutesPositive(w: World, p: string)
    requires !w.pc.Waiting? && p in WatchStep(w).routes
    requires !(p in w.routes && w.routes[p] == WatchStep(w).routes[p])
    ensures WatchStep(w).routes[p] > 0 && Records(w.pc.entries, p, WatchStep(w).routes[p])
  {
    assert w.pc.entries[w.pc.i].prefix == p;
  }

  lemma {:induction false} TickAloneRoutes(w: World, k: nat)
    requires w.pc.At? && w.pc.i <= k < |w.pc.entries| && UniquePrefixes(w.pc.entries) && w.pc.entries[k].port > 0
    ensures var e := w.pc.entries[k];
            Routed(TickAlone(w), e.prefix, e.port) <==>
              Routed(w, e.prefix, e.port) || Belief(w, e.prefix) != Some(e.port)
    decreases |w.pc.entries| - w.pc.i
  {
    var e := w.pc.entries[k];
    assert TickAlone(w) == TickAlone(PastEntry(w));
    if w.pc.i == k {
      TickAloneKeeps(PastEntry(w), e.prefix, e.port);
    } else {
      TickAloneRoutes(PastEntry(w), k);
    }
  }

  /**
   The exclusion of unseen writes is exact: after an outside write with nothing in flight, the next
   undisturbed tick routes a recorded positive port if and only if the write was seen.
   */
  lemma {:induction false} OutsideWriteConvergesIff(w: World, reg: seq<Entry>, e: Entry)
    requires w.pc.Waiting? && w.wiring == map[] && UniquePrefixes(reg) && e in reg && e.port > 0
    ensures Routed(TickAlone(Do(Do(w, OutsideWrite(reg)), List(true))), e.prefix, e.port) <==>
              Routed(w, e.prefix, e.port) || Belief(w, e.prefix) != Some(e.port)
  {
    var k :| 0 <= k < |reg| && reg[k] == e;
    TickAloneRoutes(Do(Do(w, OutsideWrite(reg)), List(true)), k);
  }

  /**
   Serialised exposures can still miss: an in-process exposure moves the route from `a` to `b`, another
   process moves the record back to `a` before the next tick, and the tick skips the entry.
   */
  lemma {:induction false} PutBackIsMissed(name: string, prefix: string, a: int, b: int) returns (ws: seq<World>,
                                           steps: seq<Step>)
    requires a > 0 && b > 0 && a != b
    ensures IsRun(ws, steps) && Inv(ws[0]) && |steps| == 6
    ensures steps[2] == OutsideWrite([Entry(name, prefix, a)]) && steps[3] == List(true)
    ensures var w := ws[6];
            && w.pc.Waiting? && w.wiring == map[] && w.reg == [Entry(name, prefix, a)]
            && Routed(w, prefix, b)
  {
    var ea, eb := Entry(name, prefix, a), Entry(name, prefix, b);
    var w0 := World([ea], map[prefix := a], map[prefix := a], map[], Waiting);
    var w1 := Do(w0, Register(eb));
    var w2 := Do(w1, Wire(prefix));
    var w3 := Do(w2, OutsideWrite([ea]));
    var w4 := Do(w3, List(true));
    var w5 := Do(w4, Watch);
    var w6 := Do(w5, Watch);
    ws := [w0, w1, w2, w3, w4, w5, w6];
    steps := [Register(eb), Wire(prefix), OutsideWrite([ea]), List(true), Watch, Watch];
    assert w1.reg == [eb];
    assert forall p, q :: Records([ea], p, q) ==> p == prefix && q == a;
  }
}
