/**
 The unit tests of the configuration resolver (tests/atf/units/t_config.cpp)
 replayed against the model: the environment is a map that the helpers
 SetEnvVar and UnsetEnvVar update, the resolver is a Config.Resolver, and
 every check the tests make is an assertion the verifier proves.
 */
module ConfigTests {
  import opened Config

  /** The bogus value the tests put into the override variables. */
  const Sentinel: string := "env-value"

  /**
   How a platform manipulates its environment: with unsetenv a variable can
   be removed; with putenv alone "unsetting" stores the empty string.
   */
  datatype Platform = HasUnsetenv | PutenvOnly

  /** set_env_var(name, val): name holds val afterwards; no other variable changes. */
  method SetEnvVar(env: Env, name: string, val: string) returns (r: Env)
    ensures r == env[name := val]
  {
    r := env[name := val];
  }

  /**
   unset_env_var(name): name is gone afterwards, or on a putenv-only platform
   holds the empty string; no other variable changes.
   */
  method UnsetEnvVar(p: Platform, env: Env, name: string) returns (r: Env)
    ensures p == HasUnsetenv ==> r == env - {name}
    ensures p == PutenvOnly ==> r == env[name := ""]
  {
    match p
    case HasUnsetenv => r := env - {name};
    case PutenvOnly => r := env[name := ""];
  }

  /** The assumption the get test makes of the build: no built-in value is the sentinel. */
  predicate BuiltInsAvoidSentinel(b: BuiltIns)
  {
    b.libexecdir != Sentinel && b.pkgdatadir != Sentinel && b.shell != Sentinel
  }

  /**
   The environment one step of the get test sets up: the variable of the
   j-th key holds the sentinel and the other two are unset, which on a
   putenv-only platform means empty (j = -1: all three unset).
   */
  predicate OnlyOverridden(env: Env, j: int)
  {
    forall i :: 0 <= i < |Keys| ==>
      if i == j then OverrideName(Keys[i]) in env && env[OverrideName(Keys[i])] == Sentinel
      else OverrideName(Keys[i]) !in env || env[OverrideName(Keys[i])] == ""
  }

  /**
   OnlyOverridden, stated on the variable names the test spells out: the
   variable of key j holds the sentinel, the other two are unset or empty.
   */
  lemma OnlyOverriddenByName(env: Env, j: int)
    requires -1 <= j < 3
    requires j == 0 ==> "ATF_LIBEXECDIR" in env && env["ATF_LIBEXECDIR"] == Sentinel
    requires j != 0 ==> "ATF_LIBEXECDIR" !in env || env["ATF_LIBEXECDIR"] == ""
    requires j == 1 ==> "ATF_PKGDATADIR" in env && env["ATF_PKGDATADIR"] == Sentinel
    requires j != 1 ==> "ATF_PKGDATADIR" !in env || env["ATF_PKGDATADIR"] == ""
    requires j == 2 ==> "ATF_SHELL" in env && env["ATF_SHELL"] == Sentinel
    requires j != 2 ==> "ATF_SHELL" !in env || env["ATF_SHELL"] == ""
    ensures OnlyOverridden(env, j)
  {
    assert Keys[0] == LibexecdirKey && Keys[1] == PkgdatadirKey && Keys[2] == ShellKey;
  }

  /**
   In such an environment exactly the j-th key resolves to the sentinel,
   provided no built-in value is the sentinel.
   */
  lemma SentinelOnlyWhereOverridden(b: BuiltIns, env: Env, j: int)
    requires BuiltInsAvoidSentinel(b) && OnlyOverridden(env, j)
    ensures forall i :: 0 <= i < |Keys| ==> (ResolvedValue(b, env, Keys[i]) == Sentinel <==> i == j)
  {
    forall i | 0 <= i < |Keys|
      ensures ResolvedValue(b, env, Keys[i]) == Sentinel <==> i == j
    {
      assert BuiltIn(b, Keys[i]) != Sentinel;
    }
  }

  /**
   Test case get: each override variable is recognised, and only for its own
   key. observed[i] holds get(atf_libexecdir), get(atf_pkgdatadir) and
   get(atf_shell) after the i-th __reinit; step 0 has no variable set and
   step j + 1 sets only the variable of the j-th key to the sentinel.
   */
  method GetTestCase(p: Platform, b: BuiltIns, initial: Env) returns (observed: seq<seq<string>>)
    requires BuiltInsAvoidSentinel(b)
    ensures |observed| == 4
    ensures forall i :: 0 <= i < 4 ==> |observed[i]| == 3
    ensures forall i, j :: 0 <= i < 4 && 0 <= j < 3 ==> (observed[i][j] == Sentinel <==> i == j + 1)
  {
    var r := new Resolver(b, initial);
    var env := initial;

    // Nothing set: the built-in values, none of which is the sentinel.
    env := PrepareStep(p, env, -1);
    r.Reinit(env);
    var o0 := ReadBack(r, -1);

    // ATF_LIBEXECDIR set.
    env := PrepareStep(p, env, 0);
    r.Reinit(env);
    var o1 := ReadBack(r, 0);

    // ATF_PKGDATADIR set.
    env := PrepareStep(p, env, 1);
    r.Reinit(env);
    var o2 := ReadBack(r, 1);

    // ATF_SHELL set.
    env := PrepareStep(p, env, 2);
    r.Reinit(env);
    var o3 := ReadBack(r, 2);

    observed := [o0, o1, o2, o3];
  }

  /**
   The environment changes of one step of the get test, in the test's
   order: the variable of key j is set to the sentinel and the other two are
   unset (j = -1: all three are unset). No other variable changes.
   */
  method PrepareStep(p: Platform, env: Env, j: int) returns (e: Env)
    requires -1 <= j < 3
    ensures OnlyOverridden(e, j)
    ensures forall n :: n != "ATF_LIBEXECDIR" && n != "ATF_PKGDATADIR" && n != "ATF_SHELL" ==>
      (n in e <==> n in env) && (n in e ==> e[n] == env[n])
  {
    e := env;
    if j == 0 {
      e := SetEnvVar(e, "ATF_LIBEXECDIR", Sentinel);
    } else {
      e := UnsetEnvVar(p, e, "ATF_LIBEXECDIR");
    }
    if j == 1 {
      e := SetEnvVar(e, "ATF_PKGDATADIR", Sentinel);
    } else {
      e := UnsetEnvVar(p, e, "ATF_PKGDATADIR");
    }
    if j == 2 {
      e := SetEnvVar(e, "ATF_SHELL", Sentinel);
    } else {
      e := UnsetEnvVar(p, e, "ATF_SHELL");
    }
    OnlyOverriddenByName(e, j);
  }

  /**
   The checks of one step of the get test: get of each key, in key order,
   where only the j-th key's variable holds the sentinel.
   */
  method ReadBack(r: Resolver, j: int) returns (o: seq<string>)
    requires r.Valid() && BuiltInsAvoidSentinel(r.builtIns) && OnlyOverridden(r.env, j)
    ensures |o| == 3
    ensures forall i :: 0 <= i < 3 ==> (o[i] == Sentinel <==> i == j)
  {
    SentinelOnlyWhereOverridden(r.builtIns, r.env, j);
    assert Keys[0] == LibexecdirKey && Keys[1] == PkgdatadirKey && Keys[2] == ShellKey;
    o := [r.Get(LibexecdirKey), r.Get(PkgdatadirKey), r.Get(ShellKey)];
  }

  /**
   What the get test relies on between its steps: a resolver reinitialised
   from e2 answers exactly like one that only ever read e2, whatever it read
   before, and reinitialising again from the same environment changes nothing.
   */
  method ReinitForgetsEarlierEnvironments(b: BuiltIns, e1: Env, e2: Env)
    returns (reused: map<string, string>, again: map<string, string>, direct: map<string, string>)
    ensures reused == direct && again == direct
  {
    var r := new Resolver(b, e1);
    r.Reinit(e2);
    reused := r.GetAll();
    r.Reinit(e2);
    again := r.GetAll();
    var s := new Resolver(b, e2);
    direct := s.GetAll();
  }

  /** Test case get_all: the three recognised keys, and only those, are returned. */
  method GetAllTestCase(b: BuiltIns, initial: Env, env: Env) returns (vars: map<string, string>)
    ensures |vars| == 3
    ensures LibexecdirKey in vars && PkgdatadirKey in vars && ShellKey in vars
  {
    var r := new Resolver(b, initial);
    r.Reinit(env);
    vars := r.GetAll();
  }

  /** The strings the has test asks about: the three keys first, then nine non-keys. */
  const HasQueries: seq<string> := [
    "atf_libexecdir", "atf_pkgdatadir", "atf_shell",
    "ATF_LIBEXECDIR", "ATF_PKGDATADIR", "ATF_SHELL",
    "foo", "BAR", "atf_foo", "ATF_BAR", "atf_shel", "atf_shells"]

  /**
   Test case has: answers[i] is has(HasQueries[i]); exactly the three
   lower-case keys are recognised, whatever the environment.
   */
  method HasTestCase(b: BuiltIns, initial: Env, env: Env) returns (answers: seq<bool>)
    ensures |answers| == |HasQueries|
    ensures forall i :: 0 <= i < |answers| ==> (answers[i] <==> i < 3)
  {
    var r := new Resolver(b, initial);
    r.Reinit(env);
    answers := seq(|HasQueries|, i requires 0 <= i < |HasQueries| && r.Valid() reads r => r.Has(HasQueries[i]));
  }
}
