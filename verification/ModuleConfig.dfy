/** A module's config variables, and the env file an install writes for them. */
module ModuleConfig {
  import opened Prelude

  type Config = map<string, string>

  datatype ConfigVar = ConfigVar(name: string, default: string, generate: bool, required: bool)

  /**
   What an install fills in a module's variables from: the overrides, the values it could mint, and, if
   `readOk`, the env file of the last install.
   */
  datatype Recipe = Recipe(vars: seq<ConfigVar>, overrides: Config, mint: Config, readOk: bool)

  /** A variable's value in the env file of the last install; a blank one does not count. */
  function Persisted(env: Config, readOk: bool, k: string): Option<string> {
    if readOk && k in env && env[k] != "" then Some(env[k]) else None
  }

  /** What one variable gets: an override, what it had or a minted value if it is generated, else its default. */
  function ValueOf(rc: Recipe, env: Config, v: ConfigVar): Option<string> {
    if v.name in rc.overrides then Some(rc.overrides[v.name])
    else if v.generate then
      var was := Persisted(env, rc.readOk, v.name);
      if was.Some? then was else if v.name in rc.mint then Some(rc.mint[v.name]) else None
    else if v.default != "" then Some(v.default) else None
  }

  /** Minting failed, or a required variable has no value. */
  predicate Lacks(rc: Recipe, env: Config, v: ConfigVar) {
    (v.generate || v.required) && ValueOf(rc, env, v).None?
  }

  predicate Refuses(rc: Recipe, env: Config) {
    exists i :: 0 <= i < |rc.vars| && Lacks(rc, env, rc.vars[i])
  }

  function Filled(rc: Recipe, env: Config): Config
    decreases |rc.vars|
  {
    if rc.vars == [] then map[]
    else
      var rest := Filled(rc.(vars := rc.vars[..|rc.vars| - 1]), env);
      var v := rc.vars[|rc.vars| - 1];
      var x := ValueOf(rc, env, v);
      if x.Some? then rest[v.name := x.value] else rest
  }

  /** resolveConfig, not interactive. */
  method ResolveConfig(rc: Recipe, env: Config) returns (r: Option<Config>)
    ensures r.None? <==> Refuses(rc, env)
    ensures r.Some? ==> r.value == Filled(rc, env)
  {
    var existing: Config := if rc.readOk then env else map[];
    var values: Config := map[];
    for i := 0 to |rc.vars|
      invariant forall j :: 0 <= j < i ==> !Lacks(rc, env, rc.vars[j])
      invariant values == Filled(rc.(vars := rc.vars[..i]), env)
    {
      var cv := rc.vars[i];
      FilledNext(rc, env, i);
      if cv.name in rc.overrides {
        values := values[cv.name := rc.overrides[cv.name]];
        continue;
      }
      if cv.generate {
        if cv.name in existing && existing[cv.name] != "" {
          values := values[cv.name := existing[cv.name]];
          continue;
        }
        if cv.name !in rc.mint { return None; }
        values := values[cv.name := rc.mint[cv.name]];
        continue;
      }
      if cv.default != "" {
        values := values[cv.name := cv.default];
        continue;
      }
      if cv.required { return None; }
    }
    assert rc.vars[..|rc.vars|] == rc.vars;
    return Some(values);
  }

  lemma {:induction false} FilledNext(rc: Recipe, env: Config, i: nat)
    requires i < |rc.vars|
    ensures var rest := Filled(rc.(vars := rc.vars[..i]), env);
            var x := ValueOf(rc, env, rc.vars[i]);
            Filled(rc.(vars := rc.vars[..i + 1]), env) == if x.Some? then rest[rc.vars[i].name := x.value] else rest
  {
    assert rc.vars[..i + 1][..i] == rc.vars[..i];
  }

  /** The variable `v` alone declares `k`. */
  predicate Declares(vars: seq<ConfigVar>, v: ConfigVar, k: string) {
    v.name == k && v in vars && forall w :: w in vars && w.name == k ==> w == v
  }

  predicate Declared(vars: seq<ConfigVar>, k: string) {
    exists v :: v in vars && v.name == k
  }

  lemma {:induction false} LastVar(vars: seq<ConfigVar>)
    requires vars != []
    ensures var init, last := vars[..|vars| - 1], vars[|vars| - 1];
            && last in vars && (forall v :: v in init ==> v in vars)
            && forall v :: v in vars ==> v == last || v in init
  {
    assert vars == vars[..|vars| - 1] + [vars[|vars| - 1]];
  }

  /** A variable that nothing declares is not filled in. */
  lemma {:induction false} FilledOnlyDeclared(rc: Recipe, env: Config, k: string)
    ensures k in Filled(rc, env) ==> Declared(rc.vars, k)
    decreases |rc.vars|
  {
    if rc.vars != [] {
      LastVar(rc.vars);
      FilledOnlyDeclared(rc.(vars := rc.vars[..|rc.vars| - 1]), env, k);
    }
  }

  /** An override reaches every declared variable, however often and however it is declared. */
  lemma {:induction false} OverrideWins(rc: Recipe, env: Config, k: string)
    requires k in rc.overrides && Declared(rc.vars, k)
    ensures k in Filled(rc, env) && Filled(rc, env)[k] == rc.overrides[k]
    decreases |rc.vars|
  {
    LastVar(rc.vars);
    var init := rc.vars[..|rc.vars| - 1];
    if rc.vars[|rc.vars| - 1].name != k {
      assert Declared(init, k);
      OverrideWins(rc.(vars := init), env, k);
    }
  }

  /** The env file holds what the one declaration of a variable gives it. */
  lemma {:induction false} FilledIs(rc: Recipe, env: Config, v: ConfigVar)
    requires Declares(rc.vars, v, v.name)
    ensures (if v.name in Filled(rc, env) then Some(Filled(rc, env)[v.name]) else None) == ValueOf(rc, env, v)
    decreases |rc.vars|
  {
    LastVar(rc.vars);
    var init := rc.vars[..|rc.vars| - 1];
    FilledOnlyDeclared(rc.(vars := init), env, v.name);
    if v in init { FilledIs(rc.(vars := init), env, v); }
  }

  /** Nothing at all is filled in exactly if no variable has a value. */
  lemma {:induction false} FilledNothing(rc: Recipe, env: Config)
    ensures Filled(rc, env) == map[] <==> forall v :: v in rc.vars ==> ValueOf(rc, env, v).None?
    decreases |rc.vars|
  {
    if rc.vars != [] {
      LastVar(rc.vars);
      FilledNothing(rc.(vars := rc.vars[..|rc.vars| - 1]), env);
      var v := rc.vars[|rc.vars| - 1];
      if ValueOf(rc, env, v).Some? { assert v.name in Filled(rc, env); }
    }
  }

  // ---- values carried over an uninstall ----

  predicate IsGenerated(vars: seq<ConfigVar>, k: string) {
    exists v :: v in vars && v.name == k && v.generate
  }

  /** The generated values of the last install that are not assigned. */
  function Kept(vars: seq<ConfigVar>, env: Config, given: Config): Config {
    map k | k in env && IsGenerated(vars, k) && k !in given && env[k] != "" :: env[k]
  }

  /** CarryGeneratedConfig: generated values persisted by the last install survive, assigned ones win. */
  function Carried(vars: seq<ConfigVar>, env: Config, given: Config): Config {
    Kept(vars, env, given) + given
  }

  method CarryGenerated(vars: seq<ConfigVar>, env: Config, given: Config) returns (merged: Config)
    ensures merged == Carried(vars, env, given)
  {
    if env == map[] { return given; }
    merged := given;
    for i := 0 to |vars|
      invariant merged == Carried(vars[..i], env, given)
    {
      var cv := vars[i];
      CarriedNext(vars, env, given, i);
      if !cv.generate || cv.name in merged { continue; }
      if cv.name in env && env[cv.name] != "" { merged := merged[cv.name := env[cv.name]]; }
    }
    assert vars[..|vars|] == vars;
  }

  lemma {:induction false} GeneratedNext(a: seq<ConfigVar>, v: ConfigVar, k: string)
    ensures IsGenerated(a + [v], k) <==> IsGenerated(a, k) || (v.generate && v.name == k)
  {
    var b := a + [v];
    assert v in b && forall w :: w in a ==> w in b;
  }

  lemma {:induction false} KeptNext(a: seq<ConfigVar>, v: ConfigVar, env: Config, given: Config)
    ensures Kept(a + [v], env, given) ==
            if v.generate && v.name in env && v.name !in given && env[v.name] != ""
            then Kept(a, env, given)[v.name := env[v.name]] else Kept(a, env, given)
  {
    forall k ensures IsGenerated(a + [v], k) <==> IsGenerated(a, k) || (v.generate && v.name == k) {
      GeneratedNext(a, v, k);
    }
  }

  lemma {:induction false} CarriedNext(vars: seq<ConfigVar>, env: Config, given: Config, i: nat)
    requires i < |vars|
    ensures var before, v := Carried(vars[..i], env, given), vars[i];
            Carried(vars[..i + 1], env, given) ==
            if v.generate && v.name !in before && v.name in env && env[v.name] != ""
            then before[v.name := env[v.name]] else before
  {
    assert vars[..i + 1] == vars[..i] + [vars[i]];
    KeptNext(vars[..i], vars[i], env, given);
  }
}
