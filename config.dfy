/**
 The installation-path configuration resolver (atf::config), as its unit
 tests in tests/atf/units/t_config.cpp pin it down.

 There are exactly three recognised keys. Each has an environment variable
 that overrides it and a built-in value supplied by the build. The resolver
 keeps a cached mapping from every key to its resolved value; Reinit
 recomputes that mapping from the environment as it stands, and Has, Get and
 GetAll are lookups on the cache.

 Rule for empty values: a variable that is present in the environment
 overrides its key even when its value is the empty string; only a variable
 that is absent leaves the built-in value in place.
 */
module Config {

  /** The process environment: variable name to value. */
  type Env = map<string, string>

  const LibexecdirKey: string := "atf_libexecdir"
  const PkgdatadirKey: string := "atf_pkgdatadir"
  const ShellKey: string := "atf_shell"

  /** The recognised keys, in table order. */
  const Keys: seq<string> := [LibexecdirKey, PkgdatadirKey, ShellKey]

  /** The built-in values the build supplies, one per recognised key. */
  datatype BuiltIns = BuiltIns(libexecdir: string, pkgdatadir: string, shell: string)

  /** Whether k is one of the recognised keys, compared exactly. */
  predicate IsKey(k: string)
  {
    k in Keys
  }

  /** ASCII upper-casing of one character. */
  function UpperChar(c: char): char
  {
    if 'a' <= c <= 'z' then (c as int - 32) as char else c
  }

  /** ASCII upper-casing of a string, character by character. */
  function ToUpper(s: string): string
  {
    seq(|s|, i requires 0 <= i < |s| => UpperChar(s[i]))
  }

  /** The environment variable that overrides key k: the upper-case form of k. */
  function OverrideName(k: string): (n: string)
    requires IsKey(k)
    ensures n == ToUpper(k)
  {
    if k == LibexecdirKey then "ATF_LIBEXECDIR"
    else if k == PkgdatadirKey then "ATF_PKGDATADIR"
    else "ATF_SHELL"
  }

  /** The built-in value of key k. */
  function BuiltIn(b: BuiltIns, k: string): string
    requires IsKey(k)
  {
    if k == LibexecdirKey then b.libexecdir
    else if k == PkgdatadirKey then b.pkgdatadir
    else b.shell
  }

  /** The resolved value of key k: the override if its variable is set, else the built-in. */
  function ResolvedValue(b: BuiltIns, env: Env, k: string): string
    requires IsKey(k)
  {
    if OverrideName(k) in env then env[OverrideName(k)] else BuiltIn(b, k)
  }

  /** The mapping a (re)initialisation computes from the environment env. */
  function Resolution(b: BuiltIns, env: Env): map<string, string>
  {
    map k | k in Keys :: ResolvedValue(b, env, k)
  }

  /**
   The resolution loop: every recognised key, in table order, takes the value
   of its override variable if that is set and its built-in value otherwise.
   */
  method ResolveAll(b: BuiltIns, env: Env) returns (m: map<string, string>)
    ensures m == Resolution(b, env)
  {
    m := map[];
    var i := 0;
    while i < |Keys|
      invariant 0 <= i <= |Keys|
      invariant forall k :: k in m <==> k in Keys[..i]
      invariant forall j :: 0 <= j < i ==> m[Keys[j]] == ResolvedValue(b, env, Keys[j])
    {
      var k := Keys[i];
      var name := OverrideName(k);
      if name in env {
        m := m[k := env[name]];
      } else {
        m := m[k := BuiltIn(b, k)];
      }
      i := i + 1;
    }
    assert Keys[..i] == Keys;
  }

  /** get_all() has exactly the three recognised keys, whatever the environment. */
  lemma ResolutionHasExactlyTheKeys(b: BuiltIns, env: Env)
    ensures Resolution(b, env).Keys == {LibexecdirKey, PkgdatadirKey, ShellKey}
    ensures |Resolution(b, env)| == 3
  {
    var m := Resolution(b, env);
    assert m.Keys == {LibexecdirKey, PkgdatadirKey, ShellKey};
    assert |{LibexecdirKey, PkgdatadirKey, ShellKey}| == 3;
  }

  /** With no override variable set, every key resolves to its built-in value. */
  lemma NoOverridesGiveBuiltIns(b: BuiltIns, env: Env)
    requires forall k :: IsKey(k) ==> OverrideName(k) !in env
    ensures forall k :: IsKey(k) ==> Resolution(b, env)[k] == BuiltIn(b, k)
  {
  }

  /**
   With exactly one override variable set, that key takes the variable's
   value and the other keys keep their built-in values.
   */
  lemma SingleOverride(b: BuiltIns, env: Env, k: string)
    requires IsKey(k) && OverrideName(k) in env
    requires forall k' :: IsKey(k') && k' != k ==> OverrideName(k') !in env
    ensures Resolution(b, env)[k] == env[OverrideName(k)]
    ensures forall k' :: IsKey(k') && k' != k ==> Resolution(b, env)[k'] == BuiltIn(b, k')
  {
  }

  /**
   The resolution reads nothing but the three override variables: two
   environments that agree on them give the same mapping. So reinitialising
   keeps nothing from earlier overrides, and reinitialising twice with the
   same environment gives the same mapping both times.
   */
  lemma ResolutionReadsOnlyOverrides(b: BuiltIns, e1: Env, e2: Env)
    requires forall k :: IsKey(k) ==> (OverrideName(k) in e1 <==> OverrideName(k) in e2)
    requires forall k :: IsKey(k) && OverrideName(k) in e1 ==> e1[OverrideName(k)] == e2[OverrideName(k)]
    ensures Resolution(b, e1) == Resolution(b, e2)
  {
  }

  /**
   A resolved value equal to some string s comes from an override variable
   holding s or from a built-in value equal to s; in particular a value no
   built-in has can only appear through an override.
   */
  lemma ResolvedValueOrigin(b: BuiltIns, env: Env, k: string, s: string)
    requires IsKey(k) && Resolution(b, env)[k] == s
    ensures (OverrideName(k) in env && env[OverrideName(k)] == s) || BuiltIn(b, k) == s
  {
  }

  /**
   Matching is case-sensitive: the upper-case form of a key, which is its
   override variable's name, is not itself a key.
   */
  lemma UpperCaseFormIsNotAKey(k: string)
    requires IsKey(k)
    ensures !IsKey(ToUpper(k))
    ensures !IsKey(OverrideName(k))
  {
    var n := OverrideName(k);
    assert n[0] == 'A';
    assert forall k' :: IsKey(k') ==> k'[0] == 'a';
  }

  /**
   No recognised key is a proper prefix of another string that is a key, so
   truncations and extensions of a key (atf_shel, atf_shells) are never keys.
   */
  lemma KeysArePrefixFree(k1: string, k2: string)
    requires IsKey(k1) && IsKey(k2) && k1 <= k2
    ensures k1 == k2
  {
    assert k1[4] == k2[4];
  }

  /** The process-wide resolver: its cached mapping and the environment it was read from. */
  class Resolver {
    const builtIns: BuiltIns
    var cache: map<string, string>
    /** The environment as it stood at the last (re)initialisation. */
    ghost var env: Env

    /** The cache is the resolution of the environment last read. */
    ghost predicate Valid()
      reads this
    {
      cache == Resolution(builtIns, env)
    }

    /** The first use of the resolver reads the environment as it stands then. */
    constructor (b: BuiltIns, e: Env)
      ensures builtIns == b && env == e
      ensures Valid()
    {
      var m := ResolveAll(b, e);
      builtIns := b;
      cache := m;
      env := e;
    }

    /** __reinit(): recompute the cache from the environment e, dropping what was cached. */
    method Reinit(e: Env)
      modifies this
      ensures env == e
      ensures cache == Resolution(builtIns, e)
      ensures Valid()
    {
      cache := ResolveAll(builtIns, e);
      env := e;
    }

    /** has(k): k is one of the recognised keys, whatever the environment. */
    function Has(k: string): (r: bool)
      reads this
      requires Valid()
      ensures r <==> IsKey(k)
    {
      k in cache
    }

    /** get(k): the override if its variable was set, else the built-in value. */
    function Get(k: string): (v: string)
      reads this
      requires Valid() && Has(k)
      ensures OverrideName(k) in env ==> v == env[OverrideName(k)]
      ensures OverrideName(k) !in env ==> v == BuiltIn(builtIns, k)
    {
      cache[k]
    }

    /** get_all(): every recognised key, and nothing else, with its resolved value. */
    function GetAll(): (m: map<string, string>)
      reads this
      requires Valid()
      ensures m.Keys == {LibexecdirKey, PkgdatadirKey, ShellKey} && |m| == 3
      ensures forall k :: k in m ==> m[k] == ResolvedValue(builtIns, env, k)
    {
      ResolutionHasExactlyTheKeys(builtIns, env);
      cache
    }
  }
}
