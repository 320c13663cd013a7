# Yarn adapter of `@expo/package-manager`, modelled in Dafny

The Yarn adapter (`YarnPackageManager`) turns the package manager's abstract
operations — run a script, install, add, add as a dev dependency, add
globally, remove, remove a dev dependency, remove globally — into the
argument list passed to the `yarnpkg` binary. When Yarn is offline, the
install and add commands also carry an `--offline` flag. It can also re-root itself at a
Yarn or npm workspace root above its working directory.

The model is pure, as the adapter is (its fields are read-only and
`workspaceRoot` builds a new instance rather than changing this one):

- `wrappers.dfy` — module `Wrappers`: `Option` and `Result`.
- `seq_facts.dfy` — module `SeqFacts`: `Count` (occurrences in a sequence),
  `CountConcat`, and `CommuteSingleton` (when moving one element from the
  front of a sequence to its back leaves it unchanged), proved through the
  inductive helper `CommutedElement`.
- `yarn_package_manager.dfy` — module `YarnPackageManager`: one function per
  adapter operation. Each yields the argument list the operation would
  execute, given the offline probe's answer as a `bool`. The module also has
  a `Command` datatype with a dispatcher `Args`, used for the lemmas that
  cover all operations, plus `WorkspaceRoot` over an `Adapter` record. That
  function takes the workspace-root finder as a function parameter.

Install does not put `--offline` last. The flag is added to `['install']`
first (YarnPackageManager.ts:36) and the caller's flags come after it (:37),
so the flag sits at index 1. `InstallMatchesAppendedShape` proves the list
equals `install`, flags, `--offline` only when every flag is `--offline`. The
add commands, by contrast, put `--offline` after the names (:47, :58, :69).

Because the model works on values, the original adapter cannot be changed by
`WorkspaceRoot`: it returns a new options record and leaves its argument as
it was.

## Model

| member | source | states |
|---|---|---|
| `YarnPackageManager.WithOfflineFlag` | packages/@expo/package-manager/src/node/YarnPackageManager.ts:12-14 | the input is a prefix of the result; the result has one more element when offline and none otherwise; when offline, that extra element is `--offline` |
| `YarnPackageManager.RunArgs` | packages/@expo/package-manager/src/node/YarnPackageManager.ts:30-32 | the result is `run`, the script name, then exactly the caller's arguments; it takes no offline input, so `--offline` is never added |
| `YarnPackageManager.InstallArgs` | packages/@expo/package-manager/src/node/YarnPackageManager.ts:34-38 | element 0 is `install`; the caller's flags are the suffix; `--offline` is at index 1 when offline; when online, everything after `install` is the caller's flags |
| `YarnPackageManager.AddArgs` | packages/@expo/package-manager/src/node/YarnPackageManager.ts:41-50 | no names gives the same list as an install with no flags; otherwise the list is `add`, then the names at indices 1.., then `--offline` as the last element when offline |
| `YarnPackageManager.AddDevArgs` | packages/@expo/package-manager/src/node/YarnPackageManager.ts:52-61 | no names gives the same list as an install with no flags; otherwise `add` at 0 and `--dev` at 1, the names from index 2, and `--offline` last when offline |
| `YarnPackageManager.AddGlobalArgs` | packages/@expo/package-manager/src/node/YarnPackageManager.ts:63-72 | no names gives the same list as an install with no flags; otherwise `global`, `add`, the names from index 2, and `--offline` last when offline |
| `YarnPackageManager.RemoveArgs` | packages/@expo/package-manager/src/node/YarnPackageManager.ts:74-76 | `remove` followed by exactly the caller's names; takes no offline input |
| `YarnPackageManager.RemoveDevArgs` | packages/@expo/package-manager/src/node/YarnPackageManager.ts:78-80 | the same list as `RemoveArgs` for the same names |
| `YarnPackageManager.RemoveGlobalArgs` | packages/@expo/package-manager/src/node/YarnPackageManager.ts:82-84 | `global`, `remove`, then exactly the caller's names; takes no offline input |
| `YarnPackageManager.OfflineFlagCount` | packages/@expo/package-manager/src/node/YarnPackageManager.ts:12-84 | for every operation, the number of `--offline` words is the caller's count plus one when the operation consults the offline probe (install, add variants) and Yarn is offline, and the caller's count alone otherwise |
| `YarnPackageManager.OfflineSensitivity` | packages/@expo/package-manager/src/node/YarnPackageManager.ts:30-84 | the offline state changes the argument list if and only if the operation is install or an add variant |
| `YarnPackageManager.InstallMatchesAppendedShape` | packages/@expo/package-manager/src/node/YarnPackageManager.ts:36-37 | offline install equals `install`, flags, `--offline` if and only if every flag is `--offline`, so in general `--offline` is not last |
| `YarnPackageManager.InstallOfflineLast` | packages/@expo/package-manager/src/node/YarnPackageManager.ts:36-37 | the last argument of an install is `--offline` iff the flags are empty and Yarn is offline, or the last flag is `--offline` |
| `YarnPackageManager.InstallWithoutFlags` | packages/@expo/package-manager/src/node/YarnPackageManager.ts:34-38 | install with the default empty flags is `install` plus `--offline` when offline; `--offline` appears iff offline |
| `YarnPackageManager.AddOfflineLast` | packages/@expo/package-manager/src/node/YarnPackageManager.ts:46-71 | for the three add variants with names, the last argument is `--offline` iff Yarn is offline or the last name is `--offline` |
| `YarnPackageManager.RemoveDevIsRemove` | packages/@expo/package-manager/src/node/YarnPackageManager.ts:74-80 | remove-dev and remove give identical lists for the same names, whatever the offline state |
| `YarnPackageManager.AddExamples` | packages/@expo/package-manager/src/node/YarnPackageManager.ts:46-71 | `add lodash axios` online; `global add typescript --offline` offline; `--dev` directly after `add` |
| `YarnPackageManager.EnsureCwdDefined` | packages/@expo/package-manager/src/node/YarnPackageManager.ts:17 | succeeds iff a working directory is set, yielding it; otherwise a configuration error naming the calling operation |
| `YarnPackageManager.WorkspaceRoot` | packages/@expo/package-manager/src/node/YarnPackageManager.ts:16-28 | no working directory gives a configuration error; otherwise a new options record exists iff the finder returns a non-empty path, and that record has this path as `cwd`, the adapter's resolved `silent` and `log`, and every other option unchanged |
| `YarnPackageManager.WorkspaceRootChangesOnlyCwd` | packages/@expo/package-manager/src/node/YarnPackageManager.ts:19-24 | when the adapter's options already carry its `silent` and `log`, the re-rooted options equal the original ones with only `cwd` replaced by the found root |
| `YarnPackageManager.WorkspaceRootConsultsFinderAtCwd` | packages/@expo/package-manager/src/node/YarnPackageManager.ts:17 | the finder is consulted only at the working directory, and not at all when there is none: finders that agree there give equal results |

## Left out

- Spawning `yarnpkg` (`executeAsync`, defined in `BasePackageManager`, which is not part of this model): each operation yields the argument list it would execute, not the process result or its errors.
- The pending-spawn deferral (`createPendingSpawnAsync`) and all asynchrony: the two stages, building the arguments and then executing them, are collapsed into one pure function.
- The offline probe (`isYarnOfflineAsync`, a registry check): it is the `offline` parameter.
- The workspace-root finder (`findYarnOrNpmWorkspaceRoot`, a filesystem walk): it is the `findRoot` parameter.
- `YARN_LOCK_FILE`: its value is defined elsewhere, so the adapter's `lockFile` is not modelled. The name `yarn` and the binary `yarnpkg` are the constants `Name` and `Bin`.
- The `BasePackageManager` constructor: it derives the adapter's `silent` and `log` from its options, but its code is not part of this model. So `WorkspaceRoot` returns the options record passed to `new YarnPackageManager(...)`, not the new adapter.
- `EnsureCwdDefined`: modelled as failing only when `cwd` is absent, because the base class that defines it is not part of this model.
- Default parameters: callers of `RunArgs`, `InstallArgs` and the add functions pass `[]` explicitly where the source would use its default.
- Logging and silence: only forwarded, so `Logger` is an opaque handle and other spawn options are an opaque `map<string, string>`.
