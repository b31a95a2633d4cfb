/**
 Declarative module management: the plan that leads from what is installed to what is assigned, and
 what is left to plan once it has been applied.
 */
module Reconcile {
  import opened Prelude
  import opened Text
  import opened Manifest
  import opened ModuleConfig
  import opened Node
  import opened ModuleOps
  import opened ModuleTheorems

  /** An assignment under its reconciliation key. */
  datatype Want = Want(key: string, source: string, config: Config, status: string)

  datatype Action = DoInstall | DoUpdate | DoStart | DoStop | DoUninstall

  datatype Step = Step(action: Action, name: string, want: Option<Want>)

  function Effective(w: Want): string {
    if w.status == "" then "running" else w.status
  }

  /** A change of source or config needs a re-install. */
  predicate Drifted(w: Want, cur: Installed) {
    w.source != cur.source || w.config != cur.config
  }

  // ---- what a plan holds for one name ----

  function Removal(name: string, want: Option<Want>, cur: Option<Installed>): seq<Step> {
    if want.None? && cur.Some? then [Step(DoUninstall, name, None)] else []
  }

  predicate Changes(want: Option<Want>, cur: Option<Installed>) {
    want.Some? && (cur.None? || Drifted(want.value, cur.value))
  }

  function Change(name: string, want: Option<Want>, cur: Option<Installed>): seq<Step> {
    if Changes(want, cur) then [Step(if cur.None? then DoInstall else DoUpdate, name, want)] else []
  }

  function Transition(name: string, want: Option<Want>, cur: Option<Installed>): seq<Step> {
    if want.None? then []
    else if Changes(want, cur) then (if Effective(want.value) == STOPPED then [Step(DoStop, name, want)] else [])
    else if Effective(want.value) == "running" && cur.value.health != Running then [Step(DoStart, name, want)]
    else if Effective(want.value) == STOPPED && cur.value.health == Running then [Step(DoStop, name, want)]
    else []
  }

  function StepsFor(name: string, want: Option<Want>, cur: Option<Installed>): seq<Step> {
    Removal(name, want, cur) + Change(name, want, cur) + Transition(name, want, cur)
  }

  /** A plan's steps for one name, in order. */
  function Only(steps: seq<Step>, name: string): seq<Step> {
    if steps == [] then []
    else
      var rest := Only(steps[..|steps| - 1], name);
      if steps[|steps| - 1].name == name then rest + [steps[|steps| - 1]] else rest
  }

  function Rank(a: Action): int {
    match a case DoUninstall => 0 case DoInstall => 1 case DoUpdate => 1 case DoStart => 2 case DoStop => 2
  }

  /** Uninstalls first, then installs and updates, then run-state transitions. */
  predicate Phased(steps: seq<Step>) {
    forall i, j :: 0 <= i < j < |steps| ==> Rank(steps[i].action) <= Rank(steps[j].action)
  }

  function Get<V>(m: map<string, V>, x: string): Option<V> {
    if x in m then Some(m[x]) else None
  }

  /** The last entry of a name wins. */
  function WantsOf(desired: seq<Want>): map<string, Want> {
    if desired == [] then map[]
    else WantsOf(desired[..|desired| - 1])[desired[|desired| - 1].key := desired[|desired| - 1]]
  }

  function ActualOf(actual: seq<Installed>): map<string, Installed> {
    if actual == [] then map[] else ActualOf(actual[..|actual| - 1])[actual[|actual| - 1].name := actual[|actual| - 1]]
  }

  ghost predicate IsPlan(desired: seq<Want>, actual: seq<Installed>, plan: seq<Step>) {
    && Phased(plan)
    && forall x :: Only(plan, x) == StepsFor(x, Get(WantsOf(desired), x), Get(ActualOf(actual), x))
  }

  /** In a plan nothing comes before an uninstall but uninstalls, and nothing after a start or stop but those. */
  lemma {:induction false} PhaseOrder(desired: seq<Want>, actual: seq<Installed>, plan: seq<Step>, i: nat, j: nat)
    requires IsPlan(desired, actual, plan) && i < j < |plan|
    ensures plan[j].action.DoUninstall? ==> plan[i].action.DoUninstall?
    ensures plan[i].action.DoStart? || plan[i].action.DoStop? ==> plan[j].action.DoStart? || plan[j].action.DoStop?
  {
    assert Rank(plan[i].action) <= Rank(plan[j].action);
  }

  lemma {:induction false} OnlyConcat(a: seq<Step>, b: seq<Step>, x: string)
    ensures Only(a + b, x) == Only(a, x) + Only(b, x)
  {
    if b == [] {
      assert a + b == a;
    } else {
      assert (a + b)[..|a + b| - 1] == a + b[..|b| - 1];
      OnlyConcat(a, b[..|b| - 1], x);
    }
  }

  lemma {:induction false} OnlyEmpty(steps: seq<Step>)
    requires forall x :: Only(steps, x) == []
    ensures steps == []
  {
    if steps != [] {
      var s := steps[|steps| - 1];
      assert Only(steps, s.name) == Only(steps[..|steps| - 1], s.name) + [s];
    }
  }

  /** Only the steps of one name, when every step of `more` has that name. */
  lemma {:induction false} OnlyNamed(more: seq<Step>, name: string, x: string)
    requires forall s :: s in more ==> s.name == name
    ensures Only(more, x) == if x == name then more else []
  {
    if more != [] {
      assert more[|more| - 1] in more && forall s :: s in more[..|more| - 1] ==> s in more;
      OnlyNamed(more[..|more| - 1], name, x);
      assert more == more[..|more| - 1] + [more[|more| - 1]];
    }
  }

  method SameConfig(a: Config, b: Config) returns (same: bool)
    ensures same <==> a == b
  {
    if |a| != |b| { return false; }
    var todo := a.Keys;
    while todo != {}
      invariant todo <= a.Keys
      invariant forall k :: k in a.Keys - todo ==> k in b && b[k] == a[k]
    {
      var k :| k in todo;
      if k !in b || b[k] != a[k] { return false; }
      todo := todo - {k};
    }
    assert a.Keys <= b.Keys;
    SameKeys(a.Keys, b.Keys);
    return true;
  }

  /** updateReason: source first, then config. */
  method HasDrifted(w: Want, cur: Installed) returns (drifted: bool)
    ensures drifted == Drifted(w, cur)
  {
    if w.source != cur.source { return true; }
    var same := SameConfig(w.config, cur.config);
    return !same;
  }

  lemma {:induction false} SameKeys(a: set<string>, b: set<string>)
    requires a <= b && |a| == |b|
    ensures a == b
  {
    assert b == a + (b - a);
    assert |b - a| == 0;
  }

  method IndexWants(desired: seq<Want>) returns (m: map<string, Want>)
    ensures m == WantsOf(desired)
  {
    m := map[];
    for i := 0 to |desired|
      invariant m == WantsOf(desired[..i])
    {
      assert desired[..i + 1][..i] == desired[..i];
      m := m[desired[i].key := desired[i]];
    }
    assert desired[..|desired|] == desired;
  }

  method IndexActual(actual: seq<Installed>) returns (m: map<string, Installed>)
    ensures m == ActualOf(actual)
  {
    m := map[];
    for i := 0 to |actual|
      invariant m == ActualOf(actual[..i])
    {
      assert actual[..i + 1][..i] == actual[..i];
      m := m[actual[i].name := actual[i]];
    }
    assert actual[..|actual|] == actual;
  }

  /** The steps collected so far are those `f` gives for the names in `done`. */
  ghost predicate Collects(steps: seq<Step>, done: set<string>, f: string -> seq<Step>) {
    forall x :: Only(steps, x) == if x in done then f(x) else []
  }

  lemma {:induction false} OnlyAppend(steps: seq<Step>, more: seq<Step>, name: string, x: string)
    requires forall s :: s in more ==> s.name == name
    ensures Only(steps + more, x) == if x == name then Only(steps, x) + more else Only(steps, x)
  {
    OnlyConcat(steps, more, x);
    OnlyNamed(more, name, x);
  }

  lemma {:induction false} CollectsOne(steps: seq<Step>, done: set<string>, f: string -> seq<Step>, name: string)
    requires Collects(steps, done, f) && name !in done && forall s :: s in f(name) ==> s.name == name
    ensures Collects(steps + f(name), done + {name}, f)
  {
    forall x ensures Only(steps + f(name), x) == if x in done + {name} then f(x) else [] {
      OnlyAppend(steps, f(name), name, x);
      assert Only(steps, x) == if x in done then f(x) else [];
    }
  }

  predicate AllRank(steps: seq<Step>, rank: int) {
    forall i :: 0 <= i < |steps| ==> Rank(steps[i].action) == rank
  }

  lemma {:induction false} RankConcat(a: seq<Step>, b: seq<Step>, rank: int)
    requires AllRank(a, rank) && forall s :: s in b ==> Rank(s.action) == rank
    ensures AllRank(a + b, rank)
  {
  }

  lemma {:induction false} PhasesConcat(a: seq<Step>, b: seq<Step>, c: seq<Step>)
    requires AllRank(a, 0) && AllRank(b, 1) && AllRank(c, 2)
    ensures Phased(a + b + c)
  {
  }

  lemma {:induction false} PieceShape(name: string, want: Option<Want>, cur: Option<Installed>)
    ensures forall s :: s in Removal(name, want, cur) ==> s.name == name && Rank(s.action) == 0
    ensures forall s :: s in Change(name, want, cur) ==> s.name == name && Rank(s.action) == 1
    ensures forall s :: s in Transition(name, want, cur) ==> s.name == name && Rank(s.action) == 2
  {
  }

  lemma {:induction false} PhasesMakePlan(wants: map<string, Want>, have: map<string, Installed>, a: seq<Step>,
                                          b: seq<Step>, c: seq<Step>, x: string)
    requires Collects(a, have.Keys, x => Removal(x, Get(wants, x), Get(have, x)))
    requires Grown(wants, have, b, c, wants.Keys)
    ensures Only(a + b + c, x) == StepsFor(x, Get(wants, x), Get(have, x))
  {
    OnlyConcat(a + b, c, x);
    OnlyConcat(a, b, x);
  }

  method Uninstalls(wants: map<string, Want>, have: map<string, Installed>) returns (steps: seq<Step>)
    ensures AllRank(steps, 0)
    ensures Collects(steps, have.Keys, x => Removal(x, Get(wants, x), Get(have, x)))
  {
    ghost var f := x => Removal(x, Get(wants, x), Get(have, x));
    steps := [];
    var todo := have.Keys;
    while todo != {}
      invariant todo <= have.Keys && AllRank(steps, 0) && Collects(steps, have.Keys - todo, f)
    {
      var name :| name in todo;
      PieceShape(name, Get(wants, name), Get(have, name));
      CollectsOne(steps, have.Keys - todo, f, name);
      RankConcat(steps, f(name), 0);
      assert have.Keys - todo + {name} == have.Keys - (todo - {name});
      steps := steps + Removal(name, Get(wants, name), Get(have, name));
      todo := todo - {name};
    }
    assert have.Keys - {} == have.Keys;
  }

  /** The changes and transitions of the wanted names in `done` have been collected. */
  ghost predicate Grown(wants: map<string, Want>, have: map<string, Installed>, changes: seq<Step>,
                        transitions: seq<Step>, done: set<string>) {
    && AllRank(changes, 1) && AllRank(transitions, 2)
    && Collects(changes, done, x => Change(x, Get(wants, x), Get(have, x)))
    && Collects(transitions, done, x => Transition(x, Get(wants, x), Get(have, x)))
  }

  lemma {:induction false} AddOne(wants: map<string, Want>, have: map<string, Installed>,
                                  changes: seq<Step>, transitions: seq<Step>, done: set<string>, name: string)
    requires Grown(wants, have, changes, transitions, done) && name !in done
    ensures Grown(wants, have, changes + Change(name, Get(wants, name), Get(have, name)),
                  transitions + Transition(name, Get(wants, name), Get(have, name)), done + {name})
  {
    var f := x => Change(x, Get(wants, x), Get(have, x));
    var g := x => Transition(x, Get(wants, x), Get(have, x));
    PieceShape(name, Get(wants, name), Get(have, name));
    CollectsOne(changes, done, f, name);
    CollectsOne(transitions, done, g, name);
    RankConcat(changes, f(name), 1);
    RankConcat(transitions, g(name), 2);
  }

  method Additions(wants: map<string, Want>, have: map<string, Installed>) returns (changes: seq<Step>,
                   transitions: seq<Step>)
    ensures Grown(wants, have, changes, transitions, wants.Keys)
  {
    changes, transitions := [], [];
    var todo := wants.Keys;
    while todo != {}
      invariant todo <= wants.Keys && Grown(wants, have, changes, transitions, wants.Keys - todo)
    {
      var name :| name in todo;
      AddOne(wants, have, changes, transitions, wants.Keys - todo, name);
      assert wants.Keys - todo + {name} == wants.Keys - (todo - {name});
      var change, transition := StepsOfOne(name, wants[name], Get(have, name));
      changes, transitions := changes + change, transitions + transition;
      todo := todo - {name};
    }
    assert wants.Keys - {} == wants.Keys;
  }

  /** The body of the loop over the assignments. */
  method StepsOfOne(name: string, w: Want, cur: Option<Installed>) returns (change: seq<Step>, transition: seq<Step>)
    ensures change == Change(name, Some(w), cur) && transition == Transition(name, Some(w), cur)
  {
    var changed := cur.None?;
    if cur.Some? { changed := HasDrifted(w, cur.value); }
    if changed {
      change := [Step(if cur.None? then DoInstall else DoUpdate, name, Some(w))];
      transition := if Effective(w) == STOPPED then [Step(DoStop, name, Some(w))] else [];
      return;
    }
    change, transition := [], [];
    if Effective(w) == "running" && cur.value.health != Running {
      transition := [Step(DoStart, name, Some(w))];
    } else if Effective(w) == STOPPED && cur.value.health == Running {
      transition := [Step(DoStop, name, Some(w))];
    }
  }

  // ---- sorting a phase by name ----

  /** Go's order on strings. */
  predicate Less(a: string, b: string)
    decreases |a|
  {
    b != "" && (a == "" || a[0] < b[0] || (a[0] == b[0] && Less(a[1..], b[1..])))
  }

  /** The names agree up to `k`, and there the first one ends or has the smaller character. */
  predicate Precedes(a: string, b: string, k: nat) {
    k < |b| && k <= |a| && a[..k] == b[..k] && (k == |a| || a[k] < b[k])
  }

  lemma {:induction false} PrecedesTail(a: string, b: string, k: nat)
    requires a != "" && b != "" && a[0] == b[0]
    ensures Precedes(a, b, k + 1) <==> Precedes(a[1..], b[1..], k)
    ensures !Precedes(a, b, 0)
  {
    if k < |a| && k < |b| {
      assert a[..k + 1] == [a[0]] + a[1..][..k] && b[..k + 1] == [b[0]] + b[1..][..k];
      assert a[1..][..k] == a[..k + 1][1..] && b[1..][..k] == b[..k + 1][1..];
    }
  }

  /** The order of names is lexicographic. */
  lemma {:induction false} LessIff(a: string, b: string)
    ensures Less(a, b) <==> exists k :: Precedes(a, b, k)
    decreases |a|
  {
    if a != "" && b != "" && a[0] == b[0] {
      LessIff(a[1..], b[1..]);
      if k: nat :| Precedes(a[1..], b[1..], k) {
        PrecedesTail(a, b, k);
      }
      if k: nat :| Precedes(a, b, k) {
        PrecedesTail(a, b, if k > 0 then k - 1 else 0);
      }
    } else {
      assert forall k :: 0 < k && Precedes(a, b, k) ==> a[..k][0] == b[..k][0];
      assert Precedes(a, b, 0) <==> b != "" && (a == "" || a[0] < b[0]);
    }
  }

  lemma {:induction false} LessTotal(a: string, b: string)
    ensures !(Less(a, b) && Less(b, a)) && (Less(a, b) || Less(b, a) || a == b) && !(a == b && Less(a, b))
    decreases |a|
  {
    if a != "" && b != "" {
      LessTotal(a[1..], b[1..]);
      assert a == [a[0]] + a[1..] && b == [b[0]] + b[1..];
    }
  }

  lemma {:induction false} LessTrans(a: string, b: string, c: string)
    requires Less(a, b) && !Less(c, b)
    ensures Less(a, c)
    decreases |a|
  {
    if a != "" && a[0] == b[0] && c != "" && b[0] == c[0] {
      LessTrans(a[1..], b[1..], c[1..]);
    }
  }

  predicate ByName(steps: seq<Step>) {
    forall i, j :: 0 <= i < j < |steps| ==> !Less(steps[j].name, steps[i].name)
  }

  function Insert(s: Step, steps: seq<Step>): seq<Step> {
    if steps == [] || Less(s.name, steps[0].name) then [s] + steps else [steps[0]] + Insert(s, steps[1..])
  }

  function Sorted(steps: seq<Step>): seq<Step> {
    if steps == [] then [] else Insert(steps[|steps| - 1], Sorted(steps[..|steps| - 1]))
  }

  lemma {:induction false} InsertMembers(s: Step, steps: seq<Step>, x: Step)
    ensures x in Insert(s, steps) <==> x == s || x in steps
  {
    if steps != [] && !Less(s.name, steps[0].name) {
      InsertMembers(s, steps[1..], x);
      assert steps == [steps[0]] + steps[1..];
    }
  }

  lemma {:induction false} AllAfter(s: Step, steps: seq<Step>, i: nat)
    requires ByName(steps) && i < |steps| && Less(s.name, steps[0].name)
    ensures Less(s.name, steps[i].name) && s.name != steps[i].name
  {
    if i > 0 { LessTrans(s.name, steps[0].name, steps[i].name); }
    LessTotal(s.name, steps[i].name);
  }

  lemma {:induction false} InsertSorted(s: Step, steps: seq<Step>)
    requires ByName(steps)
    ensures ByName(Insert(s, steps))
  {
    var out := Insert(s, steps);
    if steps == [] {
    } else if Less(s.name, steps[0].name) {
      forall i | 0 <= i < |steps| ensures !Less(steps[i].name, s.name) {
        AllAfter(s, steps, i);
        LessTotal(s.name, steps[i].name);
      }
    } else {
      var rest := Insert(s, steps[1..]);
      InsertSorted(s, steps[1..]);
      forall j | 0 <= j < |rest| ensures !Less(rest[j].name, steps[0].name) {
        InsertMembers(s, steps[1..], rest[j]);
        if rest[j] != s {
          var k :| 0 <= k < |steps[1..]| && steps[1..][k] == rest[j];
          assert steps[k + 1] == rest[j];
        }
      }
    }
  }

  lemma {:induction false} InsertOnly(s: Step, steps: seq<Step>, x: string)
    requires ByName(steps)
    ensures Only(Insert(s, steps), x) == Only(steps, x) + if s.name == x then [s] else []
  {
    if steps == [] || Less(s.name, steps[0].name) {
      InsertFront(s, steps, x);
    } else {
      var head, rest := [steps[0]], steps[1..];
      InsertOnly(s, rest, x);
      OnlyConcat(head, Insert(s, rest), x);
      OnlyConcat(head, rest, x);
      assert steps == head + rest;
      Regroup(Only(head, x), Only(rest, x), if s.name == x then [s] else []);
    }
  }

  lemma {:induction false} Regroup(a: seq<Step>, b: seq<Step>, c: seq<Step>)
    ensures a + (b + c) == (a + b) + c
  {
  }

  lemma {:induction false} InsertFront(s: Step, steps: seq<Step>, x: string)
    requires ByName(steps) && (steps == [] || Less(s.name, steps[0].name))
    ensures Only([s] + steps, x) == Only(steps, x) + if s.name == x then [s] else []
  {
    OnlyNamed([s], s.name, x);
    OnlyConcat([s], steps, x);
    if x == s.name && steps != [] { OnlyNone(s, steps); }
  }

  lemma {:induction false} OnlyNone(s: Step, steps: seq<Step>)
    requires ByName(steps) && steps != [] && Less(s.name, steps[0].name)
    ensures Only(steps, s.name) == []
  {
    forall i | 0 <= i < |steps| ensures steps[i].name != s.name { AllAfter(s, steps, i); }
    OnlyAbsent(steps, s.name);
  }

  lemma {:induction false} OnlyAbsent(steps: seq<Step>, x: string)
    requires forall i :: 0 <= i < |steps| ==> steps[i].name != x
    ensures Only(steps, x) == []
  {
    if steps != [] { OnlyAbsent(steps[..|steps| - 1], x); }
  }

  /** Sorting keeps the steps, the order of each module's own steps, and puts the names in order. */
  lemma {:induction false} SortedShape(steps: seq<Step>)
    ensures ByName(Sorted(steps))
    ensures forall x :: Only(Sorted(steps), x) == Only(steps, x)
    ensures forall s :: s in Sorted(steps) <==> s in steps
  {
    if steps != [] {
      var init, last := steps[..|steps| - 1], steps[|steps| - 1];
      SortedShape(init);
      InsertSorted(last, Sorted(init));
      forall x ensures Only(Sorted(steps), x) == Only(steps, x) { InsertOnly(last, Sorted(init), x); }
      forall s ensures s in Sorted(steps) <==> s in steps {
        InsertMembers(last, Sorted(init), s);
        assert steps == init + [last];
      }
    }
  }

  lemma {:induction false} SortedRank(steps: seq<Step>, rank: int)
    requires AllRank(steps, rank)
    ensures AllRank(Sorted(steps), rank)
  {
    SortedShape(steps);
    var out := Sorted(steps);
    forall i | 0 <= i < |out| ensures Rank(out[i].action) == rank {
      assert out[i] in out;
      var k :| 0 <= k < |steps| && steps[k] == out[i];
    }
  }

  /** Within a phase the names are in order. */
  predicate Orderly(plan: seq<Step>) {
    forall i, j :: 0 <= i < j < |plan| && Rank(plan[i].action) == Rank(plan[j].action) ==>
      !Less(plan[j].name, plan[i].name)
  }

  lemma {:induction false} OrderlyConcat(a: seq<Step>, b: seq<Step>, c: seq<Step>)
    requires ByName(a) && ByName(b) && ByName(c) && AllRank(a, 0) && AllRank(b, 1) && AllRank(c, 2)
    ensures Orderly(a + b + c)
  {
  }

  /** The diff: maps are walked in any order, and each phase is sorted by name at the end. */
  method MakePlan(desired: seq<Want>, actual: seq<Installed>) returns (plan: seq<Step>)
    ensures IsPlan(desired, actual, plan) && Orderly(plan)
  {
    var wants := IndexWants(desired);
    var have := IndexActual(actual);
    var uninstalls := Uninstalls(wants, have);
    var changes, transitions := Additions(wants, have);
    plan := Sorted(uninstalls) + Sorted(changes) + Sorted(transitions);
    SortedPhases(uninstalls, changes, transitions);
    forall x ensures Only(plan, x) == StepsFor(x, Get(wants, x), Get(have, x)) {
      PhasesMakePlan(wants, have, uninstalls, changes, transitions, x);
      SortedOnly(uninstalls, changes, transitions, x);
    }
  }

  lemma {:induction false} SortedPhases(a: seq<Step>, b: seq<Step>, c: seq<Step>)
    requires AllRank(a, 0) && AllRank(b, 1) && AllRank(c, 2)
    ensures Phased(Sorted(a) + Sorted(b) + Sorted(c)) && Orderly(Sorted(a) + Sorted(b) + Sorted(c))
  {
    SortedRank(a, 0);
    SortedRank(b, 1);
    SortedRank(c, 2);
    SortedShape(a);
    SortedShape(b);
    SortedShape(c);
    PhasesConcat(Sorted(a), Sorted(b), Sorted(c));
    OrderlyConcat(Sorted(a), Sorted(b), Sorted(c));
  }

  lemma {:induction false} SortedOnly(a: seq<Step>, b: seq<Step>, c: seq<Step>, x: string)
    ensures Only(Sorted(a) + Sorted(b) + Sorted(c), x) == Only(a + b + c, x)
  {
    OnlyConcat(Sorted(a) + Sorted(b), Sorted(c), x);
    OnlyConcat(Sorted(a), Sorted(b), x);
    OnlyConcat(a + b, c, x);
    OnlyConcat(a, b, x);
    SortedShape(a);
    SortedShape(b);
    SortedShape(c);
  }
}
