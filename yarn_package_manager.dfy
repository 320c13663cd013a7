/**
 * The Yarn adapter of the package-manager abstraction: how each abstract
 * operation (run, install, add, add-dev, add-global, remove, remove-dev,
 * remove-global) becomes the argument list handed to the `yarnpkg` binary,
 * and how the adapter is re-rooted at a workspace root.
 *
 * The offline probe is a boolean parameter; the workspace-root finder is a
 * function parameter. Spawning the process is not modelled: each operation
 * yields the argument list it would execute.
 */
module YarnPackageManager {
  import opened Wrappers
  import opened SeqFacts

  /** The adapter's display name. */
  const Name: string := "yarn"
  /** The executable the adapter spawns. */
  const Bin: string := "yarnpkg"
  /** The flag that puts Yarn into offline mode. */
  const OfflineFlag: string := "--offline"

  // ------------------------------------------------------------------
  // Argument lists
  // ------------------------------------------------------------------

  /** Appends the offline flag when Yarn is offline; otherwise leaves the list alone. */
  function WithOfflineFlag(namesOrFlags: seq<string>, offline: bool): (r: seq<string>)
    ensures |r| == |namesOrFlags| + (if offline then 1 else 0)
    ensures r[..|namesOrFlags|] == namesOrFlags
    ensures offline ==> r[|namesOrFlags|] == OfflineFlag
  {
    if offline then namesOrFlags + [OfflineFlag] else namesOrFlags
  }

  /** `yarnpkg run <script> <args...>`; the offline state plays no part. */
  function RunArgs(scriptName: string, argsOrFlags: seq<string>): (r: seq<string>)
    ensures |r| == 2 + |argsOrFlags|
    ensures r[0] == "run" && r[1] == scriptName
    ensures r[2..] == argsOrFlags
  {
    ["run", scriptName] + argsOrFlags
  }

  /** `yarnpkg install [--offline] <flags...>`: the offline flag is added to
      `['install']` first and the caller's flags are appended after it. */
  function InstallArgs(flags: seq<string>, offline: bool): (r: seq<string>)
    ensures |r| == 1 + |flags| + (if offline then 1 else 0)
    ensures r[0] == "install"
    ensures r[|r| - |flags|..] == flags
    ensures offline ==> r[1] == OfflineFlag
    ensures !offline ==> r[1..] == flags
  {
    WithOfflineFlag(["install"], offline) + flags
  }

  /** `yarnpkg add <names...> [--offline]`, or a plain install when no names are given. */
  function AddArgs(namesOrFlags: seq<string>, offline: bool): (r: seq<string>)
    ensures namesOrFlags == [] ==> r == InstallArgs([], offline)
    ensures namesOrFlags != [] ==>
      && |r| == 1 + |namesOrFlags| + (if offline then 1 else 0)
      && r[0] == "add"
      && r[1..1 + |namesOrFlags|] == namesOrFlags
      && (offline ==> r[|r| - 1] == OfflineFlag)
  {
    if |namesOrFlags| == 0 then InstallArgs([], offline)
    else WithOfflineFlag(["add"] + namesOrFlags, offline)
  }

  /** `yarnpkg add --dev <names...> [--offline]`, or a plain install when no names are given. */
  function AddDevArgs(namesOrFlags: seq<string>, offline: bool): (r: seq<string>)
    ensures namesOrFlags == [] ==> r == InstallArgs([], offline)
    ensures namesOrFlags != [] ==>
      && |r| == 2 + |namesOrFlags| + (if offline then 1 else 0)
      && r[0] == "add" && r[1] == "--dev"
      && r[2..2 + |namesOrFlags|] == namesOrFlags
      && (offline ==> r[|r| - 1] == OfflineFlag)
  {
    if |namesOrFlags| == 0 then InstallArgs([], offline)
    else WithOfflineFlag(["add", "--dev"] + namesOrFlags, offline)
  }

  /** `yarnpkg global add <names...> [--offline]`, or a plain install when no names are given. */
  function AddGlobalArgs(namesOrFlags: seq<string>, offline: bool): (r: seq<string>)
    ensures namesOrFlags == [] ==> r == InstallArgs([], offline)
    ensures namesOrFlags != [] ==>
      && |r| == 2 + |namesOrFlags| + (if offline then 1 else 0)
      && r[0] == "global" && r[1] == "add"
      && r[2..2 + |namesOrFlags|] == namesOrFlags
      && (offline ==> r[|r| - 1] == OfflineFlag)
  {
    if |namesOrFlags| == 0 then InstallArgs([], offline)
    else WithOfflineFlag(["global", "add"] + namesOrFlags, offline)
  }

  /** `yarnpkg remove <names...>`; the offline state plays no part. */
  function RemoveArgs(namesOrFlags: seq<string>): (r: seq<string>)
    ensures |r| == 1 + |namesOrFlags|
    ensures r[0] == "remove"
    ensures r[1..] == namesOrFlags
  {
    ["remove"] + namesOrFlags
  }

  /** Yarn has no dev-specific removal, so removing a dev dependency is a plain remove. */
  function RemoveDevArgs(namesOrFlags: seq<string>): (r: seq<string>)
    ensures r == RemoveArgs(namesOrFlags)
  {
    ["remove"] + namesOrFlags
  }

  /** `yarnpkg global remove <names...>`; the offline state plays no part. */
  function RemoveGlobalArgs(namesOrFlags: seq<string>): (r: seq<string>)
    ensures |r| == 2 + |namesOrFlags|
    ensures r[0] == "global" && r[1] == "remove"
    ensures r[2..] == namesOrFlags
  {
    ["global", "remove"] + namesOrFlags
  }

  // ------------------------------------------------------------------
  // The adapter's operations as one vocabulary
  // ------------------------------------------------------------------

  /** A call of one of the adapter's operations with its arguments. */
  datatype Command =
    | Run(scriptName: string, argsOrFlags: seq<string>)
    | Install(flags: seq<string>)
    | Add(names: seq<string>)
    | AddDev(names: seq<string>)
    | AddGlobal(names: seq<string>)
    | Remove(names: seq<string>)
    | RemoveDev(names: seq<string>)
    | RemoveGlobal(names: seq<string>)

  /** The operations that consult the offline probe (install and the add variants). */
  predicate ProbesOffline(c: Command) {
    c.Install? || c.Add? || c.AddDev? || c.AddGlobal?
  }

  /** The words the caller supplied to the operation. */
  function Supplied(c: Command): seq<string> {
    match c
    case Run(s, a) => [s] + a
    case Install(f) => f
    case Add(n) => n
    case AddDev(n) => n
    case AddGlobal(n) => n
    case Remove(n) => n
    case RemoveDev(n) => n
    case RemoveGlobal(n) => n
  }

  /** The argument list the operation executes, given the offline probe's answer. */
  function Args(c: Command, offline: bool): seq<string> {
    match c
    case Run(s, a) => RunArgs(s, a)
    case Install(f) => InstallArgs(f, offline)
    case Add(n) => AddArgs(n, offline)
    case AddDev(n) => AddDevArgs(n, offline)
    case AddGlobal(n) => AddGlobalArgs(n, offline)
    case Remove(n) => RemoveArgs(n)
    case RemoveDev(n) => RemoveDevArgs(n)
    case RemoveGlobal(n) => RemoveGlobalArgs(n)
  }

  /** Counting the offline flags of `WithOfflineFlag`: one more than in the input when offline. */
  lemma WithOfflineFlagCount(namesOrFlags: seq<string>, offline: bool)
    ensures Count(WithOfflineFlag(namesOrFlags, offline), OfflineFlag)
         == Count(namesOrFlags, OfflineFlag) + (if offline then 1 else 0)
  {
    if offline {
      CountConcat(namesOrFlags, [OfflineFlag], OfflineFlag);
      assert [OfflineFlag][1..] == [];
    }
  }

  /** Counting the offline flags of a fixed verb followed by caller-supplied words and the
      optional offline flag. */
  lemma VerbCount(verb: seq<string>, words: seq<string>, offline: bool)
    requires OfflineFlag !in verb
    ensures Count(WithOfflineFlag(verb + words, offline), OfflineFlag)
         == Count(words, OfflineFlag) + (if offline then 1 else 0)
  {
    WithOfflineFlagCount(verb + words, offline);
    CountConcat(verb, words, OfflineFlag);
  }

  /** The adapter adds exactly one offline flag of its own, and only when the
      operation probes and the probe says offline; every other `--offline` in
      the argument list is one the caller supplied. */
  lemma OfflineFlagCount(c: Command, offline: bool)
    ensures Count(Args(c, offline), OfflineFlag)
         == Count(Supplied(c), OfflineFlag) + (if offline && ProbesOffline(c) then 1 else 0)
  {
    match c
    case Run(s, a) =>
      assert RunArgs(s, a) == WithOfflineFlag(["run"] + ([s] + a), false);
      VerbCount(["run"], [s] + a, false);
    case Install(f) =>
      WithOfflineFlagCount(["install"], offline);
      CountConcat(WithOfflineFlag(["install"], offline), f, OfflineFlag);
    case Add(n) =>
      if n == [] {
        WithOfflineFlagCount(["install"], offline);
        assert InstallArgs([], offline) == WithOfflineFlag(["install"], offline);
      } else {
        VerbCount(["add"], n, offline);
      }
    case AddDev(n) =>
      if n == [] {
        WithOfflineFlagCount(["install"], offline);
        assert InstallArgs([], offline) == WithOfflineFlag(["install"], offline);
      } else {
        VerbCount(["add", "--dev"], n, offline);
      }
    case AddGlobal(n) =>
      if n == [] {
        WithOfflineFlagCount(["install"], offline);
        assert InstallArgs([], offline) == WithOfflineFlag(["install"], offline);
      } else {
        VerbCount(["global", "add"], n, offline);
      }
    case Remove(n) =>
      VerbCount(["remove"], n, false);
    case RemoveDev(n) =>
      VerbCount(["remove"], n, false);
    case RemoveGlobal(n) =>
      VerbCount(["global", "remove"], n, false);
  }

  /** The offline probe changes the argument list exactly for the operations that consult it. */
  lemma OfflineSensitivity(c: Command)
    ensures Args(c, true) == Args(c, false) <==> !ProbesOffline(c)
  {
  }

  /** With the offline flag set, install puts `--offline` directly after
      `install`, ahead of the caller's flags. That coincides with appending the
      flag at the very end only when every caller flag is itself `--offline`. */
  lemma InstallMatchesAppendedShape(flags: seq<string>)
    ensures InstallArgs(flags, true) == ["install"] + flags + [OfflineFlag]
        <==> forall i :: 0 <= i < |flags| ==> flags[i] == OfflineFlag
  {
    var a := InstallArgs(flags, true);
    var b := ["install"] + flags + [OfflineFlag];
    assert a == ["install"] + ([OfflineFlag] + flags);
    assert b == ["install"] + (flags + [OfflineFlag]);
    assert a == b <==> [OfflineFlag] + flags == flags + [OfflineFlag] by {
      if a == b { assert a[1..] == b[1..]; }
    }
    CommuteSingleton(OfflineFlag, flags);
  }

  /** The last argument of an install is `--offline` exactly when either the
      caller's flags end in it, or there are no flags and Yarn is offline. */
  lemma InstallOfflineLast(flags: seq<string>, offline: bool)
    ensures var r := InstallArgs(flags, offline);
      r[|r| - 1] == OfflineFlag <==>
        if flags == [] then offline else flags[|flags| - 1] == OfflineFlag
  {
  }

  /** For `install` with no flags: `--offline` is present exactly when offline. */
  lemma InstallWithoutFlags(offline: bool)
    ensures InstallArgs([], offline) == if offline then ["install", OfflineFlag] else ["install"]
    ensures OfflineFlag in InstallArgs([], offline) <==> offline
  {
  }

  /** For the add variants with names, the last argument is `--offline`
      exactly when Yarn is offline or the last name is `--offline` itself. */
  lemma AddOfflineLast(c: Command, offline: bool)
    requires c.Add? || c.AddDev? || c.AddGlobal?
    requires c.names != []
    ensures var r := Args(c, offline);
      r[|r| - 1] == OfflineFlag <==> offline || c.names[|c.names| - 1] == OfflineFlag
  {
  }

  /** The dev variant of remove is indistinguishable from remove, whatever the offline state. */
  lemma RemoveDevIsRemove(names: seq<string>, offline: bool)
    ensures Args(RemoveDev(names), offline) == Args(Remove(names), offline)
  {
  }

  /** Three worked examples: adding two packages online, a global add offline, and
      `--dev` directly after `add`. */
  lemma AddExamples()
    ensures AddArgs(["lodash", "axios"], false) == ["add", "lodash", "axios"]
    ensures AddGlobalArgs(["typescript"], true) == ["global", "add", "typescript", OfflineFlag]
    ensures AddDevArgs(["x"], false)[1] == "--dev"
  {
  }

  // ------------------------------------------------------------------
  // Workspace root
  // ------------------------------------------------------------------

  /** An opaque handle for the logging callback, which the adapter only forwards. */
  datatype Logger = Logger(id: nat)

  /** The options an adapter is constructed with: the working directory,
      silence, the logger, and any further spawn options (carried opaquely). */
  datatype Options = Options(
    cwd: Option<string>,
    silent: Option<bool>,
    log: Option<Logger>,
    rest: map<string, string>)

  /** An adapter: the options it was given and the resolved `silent` and `log` it uses. */
  datatype Adapter = Adapter(options: Options, silent: bool, log: Option<Logger>)

  /** A configuration error: the operation named by `context` needs a working directory. */
  datatype Error = CwdUndefined(context: string)

  /** The working directory, or a configuration error naming `context` when none is set. */
  function EnsureCwdDefined(a: Adapter, context: string): (r: Result<string, Error>)
    ensures r.Success? <==> a.options.cwd.Some?
    ensures r.Success? ==> r.value == a.options.cwd.value
    ensures r.Failure? ==> r.error == CwdUndefined(context)
  {
    match a.options.cwd
    case None => Failure(CwdUndefined(context))
    case Some(cwd) => Success(cwd)
  }

  /** Looks for a Yarn or npm workspace root above the working directory with
      `findRoot`. The result is the options of a new adapter rooted there, or
      `None` when the finder finds nothing (an empty path counts as nothing);
      with no working directory it is a configuration error and the finder is
      not consulted. */
  function WorkspaceRoot(a: Adapter, findRoot: string -> Option<string>): (r: Result<Option<Options>, Error>)
    ensures a.options.cwd.None? ==> r == Failure(CwdUndefined("workspaceRoot"))
    ensures a.options.cwd.Some? ==>
      && r.Success?
      && (r.value.Some? <==> findRoot(a.options.cwd.value).Some? && findRoot(a.options.cwd.value).value != "")
    ensures r.Success? && r.value.Some? ==>
      && r.value.value.cwd == findRoot(a.options.cwd.value)
      && r.value.value.silent == Some(a.silent)
      && r.value.value.log == a.log
      && r.value.value.rest == a.options.rest
  {
    match EnsureCwdDefined(a, "workspaceRoot")
    case Failure(e) => Failure(e)
    case Success(cwd) =>
      match findRoot(cwd)
      case Some(root) =>
        if root != "" then
          Success(Some(a.options.(silent := Some(a.silent), log := a.log, cwd := Some(root))))
        else Success(None)
      case None => Success(None)
  }

  /** An adapter whose options already agree with its resolved `silent` and `log`. */
  predicate Consistent(a: Adapter) {
    a.options.silent == Some(a.silent) && a.options.log == a.log
  }

  /** For a consistent adapter, the re-rooted options differ from the original
      ones in the working directory alone. */
  lemma WorkspaceRootChangesOnlyCwd(a: Adapter, findRoot: string -> Option<string>, root: string)
    requires Consistent(a)
    requires a.options.cwd.Some? && findRoot(a.options.cwd.value) == Some(root) && root != ""
    ensures WorkspaceRoot(a, findRoot) == Success(Some(a.options.(cwd := Some(root))))
  {
  }

  /** The finder is consulted only at the working directory: two finders that
      agree there give the same result, and without a working directory any
      two finders do. */
  lemma WorkspaceRootConsultsFinderAtCwd(a: Adapter, f: string -> Option<string>, g: string -> Option<string>)
    requires a.options.cwd.None? || f(a.options.cwd.value) == g(a.options.cwd.value)
    ensures WorkspaceRoot(a, f) == WorkspaceRoot(a, g)
  {
  }
}
