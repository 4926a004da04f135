# ATF test-case results and configuration resolver, in Dafny

This project models two leaf components of the Automated Testing Framework
(ATF) and proves properties of them.

- **Test-case result** (`atf::test_case_result`, module `Outcome`,
  `test_case_result.dfy`). This is an immutable value: one of three statuses
  (passed, skipped, failed) and a reason string. Values come only from the
  static factories `passed()`, `skipped(reason)`, `skipped(line, reason)`,
  `failed(reason)` and `failed(line, reason)`, because the two-field
  constructor is private. It is modelled as the datatype `TestCaseResult`
  with static factory functions and the accessors `GetStatus` and
  `GetReason`. `Valid()` states what the factories establish: a passed
  result has an empty reason. The private constructor is modelled by the
  subset type `ValidResult`: every factory returns one, and a client holds
  only such values. The lemmas show that the valid values are exactly the
  factory outputs. They also show that the accessors determine the value,
  so no line number is stored apart from the reason.
- **Configuration resolver** (`atf::config`, module `Config`, `config.dfy`).
  There are three recognised keys: `atf_libexecdir`, `atf_pkgdatadir` and
  `atf_shell`. Each key has an override variable: `ATF_LIBEXECDIR`,
  `ATF_PKGDATADIR` and `ATF_SHELL`. Each key also has a built-in value that
  the build supplies. The class `Resolver` holds the process-wide cache.
  `Reinit(env)` (`__reinit()`) replaces the cache with the resolution of
  `env`: every key takes its override variable's value if that variable is
  present, and its built-in value otherwise. `ResolveAll` is that per-key
  loop, proved equal to the specification function `Resolution`. `Has`,
  `Get` and `GetAll` look up the cache.
- **The resolver's unit tests** (module `ConfigTests`, `t_config.dfy`). The
  test cases `get`, `get_all` and `has` of `tests/atf/units/t_config.cpp`
  are replayed as the client methods `GetTestCase`, `GetAllTestCase` and
  `HasTestCase`. Each returns the values the test's checks look at, and its
  `ensures` states what those checks demand of them. Their environment
  changes are map updates made by `SetEnvVar` and `UnsetEnvVar`; one step of
  the `get` test (`PrepareStep`) makes the test's three calls in its order.
  `GetTestCase` is proved for both platform kinds: one with `unsetenv`, and
  one where "unsetting" stores an empty string through `putenv`.

Decisions that test_case_result.hpp and t_config.cpp leave open:

- **Empty values.** A variable that is present overrides its key even when
  its value is `""`. Only an absent variable leaves the built-in value.
  Under this rule, on a putenv-only platform the `get` test's "unset"
  variables resolve to `""`, and its checks still hold (`GetTestCase` with
  `PutenvOnly`).
- **Built-in values** come from the build's `config.h`. They are a
  `BuiltIns` parameter of the resolver, not concrete strings. The `get` test
  relies on none of them being `"env-value"`. That reliance is the
  precondition `BuiltInsAvoidSentinel` of `GetTestCase`.
- **Line-number format.** `skipped(line, reason)` and `failed(line, reason)`
  fold the line into the reason, but their implementation is not part of
  this model. `SkippedAt` and `FailedAt` therefore take the formatting
  function as a parameter (`LineFormat`). No concrete format is asserted.
- **`get` on an unrecognised key** is a precondition violation
  (`requires Has(k)`). The tests never exercise it.
- The resolver's implementation file (`config.cpp`) and `config.hpp` are not
  part of this model. The behaviour modelled is what the tests assert.

## Model

| member | source | states |
|---|---|---|
| `Outcome.TestCaseResult.Passed` | libatf/test_case_result.hpp:52 | returns a `ValidResult` whose status is passed and whose reason is empty |
| `Outcome.TestCaseResult.Skipped` | libatf/test_case_result.hpp:53 | returns a `ValidResult` whose status is skipped and whose reason is exactly the given reason |
| `Outcome.TestCaseResult.SkippedAt` | libatf/test_case_result.hpp:54 | same status as `Skipped(reason)`; the result is `Skipped` of one string made from the line and the reason, with no separate line field |
| `Outcome.TestCaseResult.Failed` | libatf/test_case_result.hpp:55 | returns a `ValidResult` whose status is failed and whose reason is exactly the given reason |
| `Outcome.TestCaseResult.FailedAt` | libatf/test_case_result.hpp:56 | same status as `Failed(reason)`; the result is `Failed` of one string made from the line and the reason |
| `Outcome.TestCaseResult.GetStatus` | libatf/test_case_result.hpp:58 | the status tells the factory apart: passed exactly for `Passed()` (on valid results), skipped exactly for `Skipped` of the reason, failed exactly for `Failed` of the reason |
| `Outcome.TestCaseResult.GetReason` | libatf/test_case_result.hpp:59 | empty for a valid passed result, and exactly the argument `Skipped` or `Failed` was given |
| `Outcome.EveryResultIsBuiltByFactory` | libatf/test_case_result.hpp:65 | every `ValidResult` a client can hold is `Passed()`, or `Skipped` or `Failed` of its own reason |
| `Outcome.FactoriesAreValid` | libatf/test_case_result.hpp:52-56 | every factory's output satisfies the invariant that a passed result has an empty reason |
| `Outcome.ValidMeansBuiltByFactory` | libatf/test_case_result.hpp:62-65 | a pair of fields is valid if and only if `Passed()`, `Skipped` or `Failed` fed its own reason rebuilds it |
| `Outcome.AccessorsDetermineResult` | libatf/test_case_result.hpp:58-63 | two results are equal if and only if `GetStatus` and `GetReason` agree on them, so no hidden line field exists |
| `Outcome.FactoriesAreDistinctAndInjective` | libatf/test_case_result.hpp:50-56 | results of different factories differ (exactly one status each), and `Skipped`/`Failed` are injective in the reason |
| `Outcome.LineOverloadsKeepStatus` | libatf/test_case_result.hpp:54-56 | the line overloads have the skipped and failed statuses, and both build the same reason from the same line and message |
| `Config.OverrideName` | tests/atf/units/t_config.cpp:115-136 | the override variable of each key is the key's ASCII upper-case form (`ATF_LIBEXECDIR`, `ATF_PKGDATADIR`, `ATF_SHELL`) |
| `Config.ResolveAll` | tests/atf/units/t_config.cpp:105-140 | the per-key loop returns exactly `Resolution(b, env)`: each key's override if present, else its built-in value |
| `Config.ResolutionHasExactlyTheKeys` | tests/atf/units/t_config.cpp:150-157 | the resolved mapping has exactly 3 entries, keyed `atf_libexecdir`, `atf_pkgdatadir`, `atf_shell`, for every environment |
| `Config.NoOverridesGiveBuiltIns` | tests/atf/units/t_config.cpp:105-113 | with no override variable present, every key resolves to its built-in value |
| `Config.SingleOverride` | tests/atf/units/t_config.cpp:115-140 | with only key k's variable present, k takes that variable's value and the other keys keep their built-in values |
| `Config.ResolutionReadsOnlyOverrides` | tests/atf/units/t_config.cpp:124-140 | two environments that agree on the three override variables resolve identically, so nothing carries over from earlier overrides |
| `Config.ResolvedValueOrigin` | tests/atf/units/t_config.cpp:105-113 | any resolved value is the override variable's value or the key's built-in value |
| `Config.UpperCaseFormIsNotAKey` | tests/atf/units/t_config.cpp:174-177 | the upper-case form of a key (its override variable's name) is never a recognised key |
| `Config.KeysArePrefixFree` | tests/atf/units/t_config.cpp:184-185 | a key that is a prefix of a key is that key, so truncations and extensions of keys are not keys |
| `Config.Resolver.constructor` | tests/atf/units/t_config.cpp:110 | the resolver's first read of the environment (no line of the tests shows the implicit first use; line 110 is the first explicit read): the cache is the resolution of it |
| `Config.Resolver.Reinit` | tests/atf/units/t_config.cpp:63-67 | the new cache is `Resolution(builtIns, e)`, whatever was cached before |
| `Config.Resolver.Has` | tests/atf/units/t_config.cpp:169-185 | true if and only if the argument is exactly one of the three keys, for any environment |
| `Config.Resolver.Get` | tests/atf/units/t_config.cpp:111-140 | for a recognised key: the override variable's value if it was present at the last reinit, else the built-in value |
| `Config.Resolver.GetAll` | tests/atf/units/t_config.cpp:150-157 | a map with exactly the three keys, 3 entries, each holding its resolved value |
| `ConfigTests.SetEnvVar` | tests/atf/units/t_config.cpp:69-82 | the new environment is the old one with the variable holding the value, so no other variable changes |
| `ConfigTests.UnsetEnvVar` | tests/atf/units/t_config.cpp:84-96 | with unsetenv the new environment is the old one without the variable; with putenv only the variable holds `""`; no other variable changes |
| `ConfigTests.PrepareStep` | tests/atf/units/t_config.cpp:107-136 | one step's three set/unset calls leave only key j's variable holding `"env-value"` and the other two unset or empty (all three for j = -1), and change no other variable |
| `ConfigTests.SentinelOnlyWhereOverridden` | tests/atf/units/t_config.cpp:111-140 | in such an environment, and with no built-in value equal to `"env-value"`, exactly key j resolves to `"env-value"` |
| `ConfigTests.ReadBack` | tests/atf/units/t_config.cpp:111-140 | after a reinit from such an environment, `get` of the three keys yields `"env-value"` exactly at position j |
| `ConfigTests.GetTestCase` | tests/atf/units/t_config.cpp:103-141 | all twelve checks of the `get` test: after step i, `get` of key j is `"env-value"` if and only if i = j + 1, for both `Platform` kinds, under `BuiltInsAvoidSentinel` |
| `ConfigTests.ReinitForgetsEarlierEnvironments` | tests/atf/units/t_config.cpp:124-140 | a resolver reinitialised from e2 returns the same `GetAll` as one that only read e2, and a second reinit from e2 changes nothing |
| `ConfigTests.GetAllTestCase` | tests/atf/units/t_config.cpp:148-158 | the checks of the `get_all` test: the map has 3 entries and holds each of the three keys, for any environment |
| `ConfigTests.HasTestCase` | tests/atf/units/t_config.cpp:165-186 | the checks of the `has` test: of the twelve queried strings exactly the three lower-case keys are recognised, for any environment |

## Left out

- Concurrency: the resolver's cache is process-wide and unsynchronised. The model is single-threaded.
- Lazy first initialisation: the resolver reads the environment on its first use. The model takes that environment as a parameter of the constructor.
- Reading and writing the real process environment: the environment is a `map<string, string>` that is passed in.
- Failing `setenv`/`putenv` calls (`ATF_FAIL`) and the `#error` fallbacks in `set_env_var`/`unset_env_var`: platform behaviour with no counterpart in a map update.
- The `std` namespace shims and the ATF test-registration macros: harness code with no behaviour to model.
- The concrete built-in paths from `config.h`: they are the `BuiltIns` parameter.
- `Outcome.TestCaseResult.SkippedAt`: the line-number format is not modelled, because its implementation is not part of this model. The formatter is a parameter, and the line is a `nat` rather than a bounded `size_t`.
- `Outcome.TestCaseResult.FailedAt`: the same as `SkippedAt`.
- `Config.Resolver.Get`: an unrecognised key is excluded by `requires Has(k)` rather than modelled as an error. The tests do not exercise that case.
