/** The script execution engine of code/modules/laoban/src/executors.ts:
    turning a script and a project into concrete command units
    (`buildShellCommandDetails`), naming log files (`streamNamefn`),
    running commands one after the other (`executeOneAfterTheOther`,
    `executeScript`), running generations with a reporter between them
    (`executeOneGeneration`, `executeAllGenerations`), dispatching on the
    `js:` prefix (`jsOrShellFinder`, `timeIt`, `make`), running JavaScript
    with the working directory and environment swapped in and restored
    (`executeInChangedDir`, `executeInChangedEnv`, `execJS`), and the
    exit-code mapping of `execInSpawn`.

    A synchronous throw and a promise rejection are both a `Failure`.
    `path.join`, `derefence` and `cleanUpEnv` belong to modules outside this
    model and are parameters (a `Resolver`).
 */
module Executors {
  import opened Wrappers
  import opened Utils

  // ------------------------------------------------------------- data model

  type Envs = map<string, string>

  type StreamId = string

  /** One entry of a script's `commands`; an absent `eachLink` is false. */
  datatype CommandDefn = CommandDefn(command: string, directory: Option<string>, eachLink: bool)

  datatype ScriptDetails = ScriptDetails(name: string, commands: seq<CommandDefn>, env: Option<Envs>)

  /** The `details` of a project's package details; `links` may be undefined. */
  datatype ProjectDetails = ProjectDetails(links: Option<seq<string>>)

  datatype PackageDetails = PackageDetails(name: string, details: ProjectDetails)

  /** A value in the lookup dictionary. */
  datatype Value = Str(s: string) | Package(packageDetails: PackageDetails) | Undefined

  type Dic = map<string, Value>

  datatype ScriptInContext = ScriptInContext(config: Dic, sessionId: string, details: ScriptDetails)

  datatype PackageDetailsAndDirectory = PackageDetailsAndDirectory(directory: string, packageDetails: PackageDetails)

  datatype ScriptInContextAndDirectory = ScriptInContextAndDirectory(
    scriptInContext: ScriptInContext, detailsAndDirectory: PackageDetailsAndDirectory, streams: seq<StreamId>)

  datatype CommandDetails = CommandDetails(
    command: CommandDefn, dic: Dic, env: Option<Envs>, directory: string, commandString: string)

  datatype ShellCommandDetails = ShellCommandDetails(
    scriptInContext: ScriptInContext, detailsAndDirectory: PackageDetailsAndDirectory,
    details: CommandDetails, streams: seq<StreamId>)

  /** What a JavaScript command can throw: a failed `process.chdir`, an error
      raised by the evaluated code, or `toString` called on undefined/null. */
  datatype JsError = ChdirFailed(dir: string) | Threw(message: string) | ToStringOfNothing

  /** The `err` of a result: null, a process exit code, a process killed by a
      signal, or a thrown JavaScript value. */
  datatype ErrValue = NoError | ExitCode(code: int) | Signalled | JsThrown(e: JsError)

  datatype RawShellResult = RawShellResult(err: ErrValue)

  datatype ShellResult = ShellResult(err: ErrValue, details: ShellCommandDetails)

  datatype ScriptResult = ScriptResult(scd: ScriptInContextAndDirectory, results: seq<ShellResult>)

  type Generation = seq<ScriptInContextAndDirectory>

  type GenerationResult = seq<ScriptResult>

  type RawCommandExecutor = ShellCommandDetails -> Result<RawShellResult, string>

  type ExecuteCommand = ShellCommandDetails -> Result<seq<ShellResult>, string>

  type ExecuteScriptFn = ScriptInContextAndDirectory -> Result<ScriptResult, string>

  /** The variable syntax `derefence` is told to use. */
  datatype VarSyntax = DollarsBraces | DefaultSyntax

  /** The functions of other modules that building command details calls:
      `path.join`, `derefence` in strict mode (it throws on an unknown
      variable) and `cleanUpEnv`. */
  datatype Resolver = Resolver(
    join: seq<string> -> string,
    deref: (string, Dic, string, VarSyntax) -> Result<string, string>,
    cleanUpEnv: (string, Dic, Option<Envs>) -> Result<Option<Envs>, string>)

  // ----------------------------------------------------- calculateDirectory

  /** `calculateDirectory`: a set, non-empty `directory` is joined on. */
  function CalculateDirectory(join: seq<string> -> string, directory: string, command: CommandDefn): string
  {
    if command.directory.Some? && command.directory.value != "" then join([directory, command.directory.value])
    else directory
  }

  // ----------------------------------------------------------- streamNamefn

  /** `s.replace(/c/g, r)`. */
  function ReplaceChar(s: string, c: char, r: char): string
  {
    if |s| == 0 then [] else [if s[0] == c then r else s[0]] + ReplaceChar(s[1..], c, r)
  }

  /** `s.replace(/c/g, "")`. */
  function RemoveChar(s: string, c: char): string
  {
    if |s| == 0 then [] else (if s[0] == c then [] else [s[0]]) + RemoveChar(s[1..], c)
  }

  /** The `paths` part of `streamNamefn`. */
  function StreamPaths(directory: string): string
  {
    RemoveChar(ReplaceChar(ReplaceChar(directory, '/', '_'), '\\', '_'), ':')
  }

  /** `streamNamefn(sessionDir, sessionId, scriptName, directory)`. */
  function StreamNamefn(join: seq<string> -> string, sessionDir: string, sessionId: string,
                        scriptName: string, directory: string): string
  {
    join([sessionDir, sessionId, StreamPaths(directory)]) + "." + scriptName + ".log"
  }

  /** An independent, one-pass reading of the rewriting: each separator
      becomes '_', each ':' is dropped, every other character is kept. */
  function Sanitize(s: string): string
  {
    if |s| == 0 then []
    else if s[0] == ':' then Sanitize(s[1..])
    else [if s[0] == '/' || s[0] == '\\' then '_' else s[0]] + Sanitize(s[1..])
  }

  lemma {:induction false} StreamPathsIsSanitize(directory: string)
    ensures StreamPaths(directory) == Sanitize(directory)
  {
    if |directory| > 0 {
      StreamPathsIsSanitize(directory[1..]);
      assert ReplaceChar(directory, '/', '_')[1..] == ReplaceChar(directory[1..], '/', '_');
      var a := ReplaceChar(directory, '/', '_');
      assert ReplaceChar(a, '\\', '_')[1..] == ReplaceChar(a[1..], '\\', '_');
    }
  }

  lemma {:induction false} SanitizeLeavesNoSeparator(s: string)
    ensures '/' !in Sanitize(s) && '\\' !in Sanitize(s) && ':' !in Sanitize(s)
    ensures |Sanitize(s)| <= |s|
  {
    if |s| > 0 {
      SanitizeLeavesNoSeparator(s[1..]);
    }
  }

  /** The directory part of a log name has no '/', '\' or ':', and the name
      ends with `.<scriptName>.log`. */
  lemma StreamNameShape(join: seq<string> -> string, sessionDir: string, sessionId: string,
                        scriptName: string, directory: string)
    ensures var p := StreamPaths(directory);
            '/' !in p && '\\' !in p && ':' !in p && |p| <= |directory|
    ensures var n := StreamNamefn(join, sessionDir, sessionId, scriptName, directory);
            var suffix := "." + scriptName + ".log";
            |suffix| <= |n| && n[|n| - |suffix|..] == suffix
  {
    StreamPathsIsSanitize(directory);
    SanitizeLeavesNoSeparator(directory);
  }

  /** A directory with no separator and no ':' is used as it is. */
  lemma {:induction false} SanitizeKeepsPlainNames(s: string)
    requires '/' !in s && '\\' !in s && ':' !in s
    ensures Sanitize(s) == s
  {
    if |s| > 0 {
      assert s == [s[0]] + s[1..];
      SanitizeKeepsPlainNames(s[1..]);
    }
  }

  /** Rewriting is idempotent. */
  lemma StreamPathsIdempotent(directory: string)
    ensures StreamPaths(StreamPaths(directory)) == StreamPaths(directory)
  {
    StreamPathsIsSanitize(directory);
    SanitizeLeavesNoSeparator(directory);
    StreamPathsIsSanitize(Sanitize(directory));
    SanitizeKeepsPlainNames(Sanitize(directory));
  }

  // ------------------------------------------------ buildShellCommandDetails

  /** The dictionary of `makeShellDetails`: the config with `packageDirectory`,
      `packageDetails` and `link` (undefined when there is none) laid on top. */
  function BuildDic(config: Dic, packageDirectory: string, packageDetails: PackageDetails, link: Option<string>): Dic
  {
    config["packageDirectory" := Str(packageDirectory)]
          ["packageDetails" := Package(packageDetails)]
          ["link" := if link.Some? then Str(link.value) else Undefined]
  }

  /** The three added keys shadow the config's; every other key keeps the config's value. */
  lemma DicShadowsConfig(config: Dic, dir: string, pd: PackageDetails, link: Option<string>)
    ensures var dic := BuildDic(config, dir, pd, link);
      dic.Keys == config.Keys + {"packageDirectory", "packageDetails", "link"} &&
      dic["packageDirectory"] == Str(dir) && dic["packageDetails"] == Package(pd) &&
      dic["link"] == (if link.Some? then Str(link.value) else Undefined) &&
      forall k :: k in config && k !in {"packageDirectory", "packageDetails", "link"} ==> dic[k] == config[k]
  {
  }

  /** `makeShellDetails(link)` for the command `cmd` whose directory is
      `directory`: the env is cleaned first, then the command string is
      dereferenced with `${}` variables, then the directory in strict mode. */
  function MakeShellDetails(r: Resolver, scd: ScriptInContextAndDirectory, cmd: CommandDefn, directory: string,
                            link: Option<string>): Result<ShellCommandDetails, string>
  {
    var dic := BuildDic(scd.scriptInContext.config, scd.detailsAndDirectory.directory,
                        scd.detailsAndDirectory.packageDetails, link);
    var name := scd.scriptInContext.details.name;
    var env :- r.cleanUpEnv("Script " + name + ".env", dic, scd.scriptInContext.details.env);
    var commandString :- r.deref("Script " + name + ".commandString", dic, cmd.command, DollarsBraces);
    var dir :- r.deref("Script " + name + ".directory", dic, directory, DefaultSyntax);
    Success(ShellCommandDetails(scd.scriptInContext, scd.detailsAndDirectory,
                                CommandDetails(cmd, dic, env, dir, commandString), scd.streams))
  }

  /** The project's links, `[]` when undefined. */
  function LinksOf(scd: ScriptInContextAndDirectory): seq<string>
  {
    SafeArray(scd.detailsAndDirectory.packageDetails.details.links)
  }

  /** The units of one command: one per link with `eachLink`, else one with no link. */
  function CommandUnits(r: Resolver, scd: ScriptInContextAndDirectory, cmd: CommandDefn): Result<seq<ShellCommandDetails>, string>
  {
    var directory := CalculateDirectory(r.join, scd.detailsAndDirectory.directory, cmd);
    if cmd.eachLink then MapK(LinksOf(scd), (link: string) => MakeShellDetails(r, scd, cmd, directory, Some(link)))
    else
      var u :- MakeShellDetails(r, scd, cmd, directory, None);
      Success([u])
  }

  /** `buildShellCommandDetails(scd)`: the units of every command, flattened. */
  function BuildShellCommandDetails(r: Resolver, scd: ScriptInContextAndDirectory): Result<seq<ShellCommandDetails>, string>
  {
    var uss :- MapK(scd.scriptInContext.details.commands, (cmd: CommandDefn) => CommandUnits(r, scd, cmd));
    Success(Flatten(uss))
  }

  /** What a unit of `cmd` for `link` is: the script, project and streams of
      `scd`, the command itself, the layered dictionary, and the command string
      and directory as dereferenced against it. */
  ghost predicate IsUnitFor(r: Resolver, scd: ScriptInContextAndDirectory, cmd: CommandDefn, link: Option<string>,
                            u: ShellCommandDetails)
  {
    var dic := BuildDic(scd.scriptInContext.config, scd.detailsAndDirectory.directory,
                        scd.detailsAndDirectory.packageDetails, link);
    var name := scd.scriptInContext.details.name;
    u.scriptInContext == scd.scriptInContext && u.detailsAndDirectory == scd.detailsAndDirectory &&
    u.streams == scd.streams &&
    u.details.command == cmd && u.details.dic == dic &&
    r.cleanUpEnv("Script " + name + ".env", dic, scd.scriptInContext.details.env) == Success(u.details.env) &&
    r.deref("Script " + name + ".commandString", dic, cmd.command, DollarsBraces) == Success(u.details.commandString) &&
    r.deref("Script " + name + ".directory", dic,
            CalculateDirectory(r.join, scd.detailsAndDirectory.directory, cmd), DefaultSyntax) == Success(u.details.directory)
  }

  /** A command with `eachLink` yields one unit per link, in link order (none
      when the links are undefined or empty); one without yields exactly one
      unit whose `link` is undefined. */
  lemma CommandUnitsShape(r: Resolver, scd: ScriptInContextAndDirectory, cmd: CommandDefn)
    requires CommandUnits(r, scd, cmd).Success?
    ensures var us := CommandUnits(r, scd, cmd).value;
      |us| == (if cmd.eachLink then |LinksOf(scd)| else 1) &&
      forall k :: 0 <= k < |us| ==>
        IsUnitFor(r, scd, cmd, if cmd.eachLink then Some(LinksOf(scd)[k]) else None, us[k])
  {
    var directory := CalculateDirectory(r.join, scd.detailsAndDirectory.directory, cmd);
    if cmd.eachLink {
      MapKSuccess(LinksOf(scd), (link: string) => MakeShellDetails(r, scd, cmd, directory, Some(link)));
    }
  }

  /** With `eachLink` and no links, a command yields no unit at all. */
  lemma NoLinksNoUnits(r: Resolver, scd: ScriptInContextAndDirectory, cmd: CommandDefn)
    requires cmd.eachLink && LinksOf(scd) == []
    ensures CommandUnits(r, scd, cmd) == Success([])
  {
  }

  /** Unit k of the i-th command sits at position (units of commands before) + k:
      command-definition order, with each command's fan-out contiguous. */
  lemma BuildShellCommandDetailsInOrder(r: Resolver, scd: ScriptInContextAndDirectory)
    returns (uss: seq<seq<ShellCommandDetails>>)
    requires BuildShellCommandDetails(r, scd).Success?
    ensures var cmds := scd.scriptInContext.details.commands;
      |uss| == |cmds| &&
      (forall i :: 0 <= i < |cmds| ==> CommandUnits(r, scd, cmds[i]) == Success(uss[i])) &&
      BuildShellCommandDetails(r, scd).value == Flatten(uss) &&
      |Flatten(uss)| == SumOfLengths(uss)
    ensures forall i :: 0 <= i < |uss| ==>
      SumOfLengths(uss[..i]) + |uss[i]| <= |BuildShellCommandDetails(r, scd).value|
    ensures forall i, k :: 0 <= i < |uss| && 0 <= k < |uss[i]| ==>
      BuildShellCommandDetails(r, scd).value[SumOfLengths(uss[..i]) + k] == uss[i][k]
  {
    var cmds := scd.scriptInContext.details.commands;
    var f := (cmd: CommandDefn) => CommandUnits(r, scd, cmd);
    MapKSuccess(cmds, f);
    uss := MapK(cmds, f).value;
    assert BuildShellCommandDetails(r, scd).value == Flatten(uss);
    FlattenLength(uss);
    var built := BuildShellCommandDetails(r, scd).value;
    forall i | 0 <= i < |uss| ensures SumOfLengths(uss[..i]) + |uss[i]| <= |built| {
      FlattenPrefixBound(uss, i);
    }
    forall i, k | 0 <= i < |uss| && 0 <= k < |uss[i]|
      ensures built[SumOfLengths(uss[..i]) + k] == uss[i][k]
    {
      FlattenAt(uss, i, k);
    }
  }

  /** Building fails exactly when some command's units fail, and then with
      the error of the first such command: one failed dereference aborts the
      whole build. */
  lemma BuildShellCommandDetailsFails(r: Resolver, scd: ScriptInContextAndDirectory) returns (bad: nat)
    requires BuildShellCommandDetails(r, scd).Failure?
    ensures var cmds := scd.scriptInContext.details.commands;
      bad < |cmds| && CommandUnits(r, scd, cmds[bad]) == Failure(BuildShellCommandDetails(r, scd).error) &&
      forall j :: 0 <= j < bad ==> CommandUnits(r, scd, cmds[j]).Success?
  {
    var cmds := scd.scriptInContext.details.commands;
    bad := MapKFirstFailure(cmds, (cmd: CommandDefn) => CommandUnits(r, scd, cmd));
  }

  /** Building succeeds exactly when the units of every command do. */
  lemma BuildShellCommandDetailsSucceeds(r: Resolver, scd: ScriptInContextAndDirectory)
    ensures BuildShellCommandDetails(r, scd).Success? <==>
      forall i :: 0 <= i < |scd.scriptInContext.details.commands| ==>
        CommandUnits(r, scd, scd.scriptInContext.details.commands[i]).Success?
  {
    MapKSuccess(scd.scriptInContext.details.commands, (cmd: CommandDefn) => CommandUnits(r, scd, cmd));
  }

  /** In one unit the env is cleaned first, then the command string and then
      the directory are dereferenced; the first of these to throw decides the error. */
  lemma MakeShellDetailsErrorOrder(r: Resolver, scd: ScriptInContextAndDirectory, cmd: CommandDefn, directory: string,
                                   link: Option<string>)
    ensures var dic := BuildDic(scd.scriptInContext.config, scd.detailsAndDirectory.directory,
                                scd.detailsAndDirectory.packageDetails, link);
      var name := scd.scriptInContext.details.name;
      var env := r.cleanUpEnv("Script " + name + ".env", dic, scd.scriptInContext.details.env);
      var cs := r.deref("Script " + name + ".commandString", dic, cmd.command, DollarsBraces);
      var dir := r.deref("Script " + name + ".directory", dic, directory, DefaultSyntax);
      var u := MakeShellDetails(r, scd, cmd, directory, link);
      (env.Failure? ==> u == Failure(env.error)) &&
      (env.Success? && cs.Failure? ==> u == Failure(cs.error)) &&
      (env.Success? && cs.Success? && dir.Failure? ==> u == Failure(dir.error)) &&
      (u.Success? <==> env.Success? && cs.Success? && dir.Success?)
  {
  }

  /** The directory a unit runs in is the project directory joined with the
      command's directory when that is set and non-empty, else the project
      directory itself. */
  lemma CalculateDirectoryCases(join: seq<string> -> string, directory: string, command: CommandDefn)
    ensures command.directory.None? || command.directory == Some("") ==>
      CalculateDirectory(join, directory, command) == directory
    ensures command.directory.Some? && command.directory.value != "" ==>
      CalculateDirectory(join, directory, command) == join([directory, command.directory.value])
  {
  }

  // ------------------------------------- executeOneAfterTheOther, executeScript

  /** The state of the promise chain `executeOneAfterTheOther` builds: the
      results so far (or the rejection) and the inputs `fn` was called on. */
  datatype Sequenced<From, To> = Sequenced(result: Result<seq<To>, string>, called: seq<From>)

  /** One link of the chain: once the results so far resolve, call `fn` on the
      next input and append its result; a rejected chain skips `fn`. */
  function Link<From, To>(fn: From -> Result<To, string>, acc: Sequenced<From, To>, f: From): Sequenced<From, To>
  {
    if acc.result.Failure? then acc
    else match fn(f)
      case Failure(e) => Sequenced(Failure(e), acc.called + [f])
      case Success(to) => Sequenced(Success(acc.result.value + [to]), acc.called + [f])
  }

  function ChainLink<From, To>(fn: From -> Result<To, string>): (Sequenced<From, To>, From) -> Sequenced<From, To>
  {
    (acc: Sequenced<From, To>, f: From) => Link(fn, acc, f)
  }

  /** `executeOneAfterTheOther(fn)(froms)`: the reduce over froms from `Promise.resolve([])`. */
  function ExecuteOneAfterTheOther<From, To>(fn: From -> Result<To, string>, froms: seq<From>): Sequenced<From, To>
  {
    FoldL(ChainLink(fn), Sequenced(Success([]), []), froms)
  }

  /** The inputs a sequential run calls `fn` on: each in turn, up to and
      including the first that fails. */
  function CalledUntilFailure<From, To>(fn: From -> Result<To, string>, froms: seq<From>): seq<From>
  {
    if |froms| == 0 then []
    else [froms[0]] + (if fn(froms[0]).Failure? then [] else CalledUntilFailure(fn, froms[1..]))
  }

  function PrependAll<To>(r: seq<To>, res: Result<seq<To>, string>): Result<seq<To>, string>
  {
    match res
    case Success(xs) => Success(r + xs)
    case Failure(e) => Failure(e)
  }

  lemma {:induction false} RejectedChainStaysRejected<From, To>(fn: From -> Result<To, string>, e: string,
                                                               called: seq<From>, froms: seq<From>)
    ensures FoldL(ChainLink(fn), Sequenced(Failure(e), called), froms) == Sequenced(Failure(e), called)
  {
    if |froms| > 0 {
      RejectedChainStaysRejected(fn, e, called, froms[1..]);
    }
  }

  lemma {:induction false} ChainFrom<From, To>(fn: From -> Result<To, string>, r: seq<To>, called: seq<From>, froms: seq<From>)
    ensures FoldL(ChainLink(fn), Sequenced(Success(r), called), froms) ==
      Sequenced(PrependAll(r, MapK(froms, fn)), called + CalledUntilFailure(fn, froms))
    decreases |froms|
  {
    if |froms| > 0 {
      var f := froms[0];
      var acc := Sequenced(Success(r), called);
      assert FoldL(ChainLink(fn), acc, froms) == FoldL(ChainLink(fn), Link(fn, acc, f), froms[1..]);
      match fn(f)
      case Failure(e) =>
        RejectedChainStaysRejected(fn, e, called + [f], froms[1..]);
      case Success(to) =>
        ChainFrom(fn, r + [to], called + [f], froms[1..]);
        assert CalledUntilFailure(fn, froms) == [f] + CalledUntilFailure(fn, froms[1..]);
        assert called + [f] + CalledUntilFailure(fn, froms[1..]) == called + CalledUntilFailure(fn, froms);
        match MapK(froms[1..], fn)
        case Failure(e) =>
          assert MapK(froms, fn) == Failure(e);
        case Success(xs) =>
          assert MapK(froms, fn) == Success([to] + xs);
          assert r + [to] + xs == r + ([to] + xs);
    } else {
      assert r + [] == r && called + [] == called;
    }
  }

  /** Running one after the other gives what the order-preserving map gives:
      one result per input in input order, or the first rejection; `fn` is
      called on the inputs in order and on none after the first that fails. */
  lemma OneAfterTheOtherIsMapK<From, To>(fn: From -> Result<To, string>, froms: seq<From>)
    ensures ExecuteOneAfterTheOther(fn, froms).result == MapK(froms, fn)
    ensures ExecuteOneAfterTheOther(fn, froms).called == CalledUntilFailure(fn, froms)
  {
    ChainFrom(fn, [], [], froms);
    match MapK(froms, fn)
    case Failure(_) =>
    case Success(xs) => assert [] + xs == xs;
  }

  /** `fn` is called on a prefix of the inputs: on all of them when every call
      succeeds, and otherwise exactly up to the first failing one. */
  lemma CalledIsPrefix<From, To>(fn: From -> Result<To, string>, froms: seq<From>)
    ensures (forall i :: 0 <= i < |froms| ==> fn(froms[i]).Success?) ==> CalledUntilFailure(fn, froms) == froms
    ensures forall k :: 0 <= k < |froms| && fn(froms[k]).Failure? && (forall j :: 0 <= j < k ==> fn(froms[j]).Success?) ==>
      CalledUntilFailure(fn, froms) == froms[..k + 1]
  {
    if forall i :: 0 <= i < |froms| ==> fn(froms[i]).Success? {
      CalledAll(fn, froms);
    }
    forall k | 0 <= k < |froms| && fn(froms[k]).Failure? && (forall j :: 0 <= j < k ==> fn(froms[j]).Success?)
      ensures CalledUntilFailure(fn, froms) == froms[..k + 1]
    {
      CalledUpTo(fn, froms, k);
    }
  }

  lemma {:induction false} CalledAll<From, To>(fn: From -> Result<To, string>, froms: seq<From>)
    requires forall i :: 0 <= i < |froms| ==> fn(froms[i]).Success?
    ensures CalledUntilFailure(fn, froms) == froms
    decreases |froms|
  {
    if |froms| > 0 {
      assert fn(froms[0]).Success?;
      forall i | 0 <= i < |froms[1..]| ensures fn(froms[1..][i]).Success? {
        assert froms[1..][i] == froms[i + 1];
      }
      CalledAll(fn, froms[1..]);
      assert froms == [froms[0]] + froms[1..];
    }
  }

  lemma {:induction false} CalledUpTo<From, To>(fn: From -> Result<To, string>, froms: seq<From>, k: nat)
    requires k < |froms| && fn(froms[k]).Failure?
    requires forall j :: 0 <= j < k ==> fn(froms[j]).Success?
    ensures CalledUntilFailure(fn, froms) == froms[..k + 1]
    decreases k
  {
    if k == 0 {
      assert froms[..1] == [froms[0]];
    } else {
      assert fn(froms[0]).Success?;
      assert fn(froms[1..][k - 1]).Failure?;
      forall j | 0 <= j < k - 1 ensures fn(froms[1..][j]).Success? {
        assert froms[1..][j] == froms[j + 1];
      }
      CalledUpTo(fn, froms[1..], k - 1);
      assert froms[..k + 1] == [froms[0]] + froms[1..][..k];
    }
  }

  /** `executeScript(e)(scd)`: build the units, run them one after the other,
      and concatenate the per-command result lists. */
  function ExecuteScript(e: ExecuteCommand, r: Resolver, scd: ScriptInContextAndDirectory): Result<ScriptResult, string>
  {
    var cmds :- BuildShellCommandDetails(r, scd);
    var results :- ExecuteOneAfterTheOther(e, cmds).result;
    Success(ScriptResult(scd, Flatten(results)))
  }

  /** A script resolves exactly when its units build and every unit's
      execution resolves; its results are then the concatenation, in unit
      order, of what each unit's execution returned. */
  lemma ExecuteScriptResults(e: ExecuteCommand, r: Resolver, scd: ScriptInContextAndDirectory)
    ensures ExecuteScript(e, r, scd).Success? <==>
      BuildShellCommandDetails(r, scd).Success? &&
      forall i :: 0 <= i < |BuildShellCommandDetails(r, scd).value| ==> e(BuildShellCommandDetails(r, scd).value[i]).Success?
    ensures ExecuteScript(e, r, scd).Success? ==>
      var cmds := BuildShellCommandDetails(r, scd).value;
      ExecuteScript(e, r, scd).value.scd == scd &&
      ExecuteScript(e, r, scd).value.results == Flatten(seq(|cmds|, i requires 0 <= i < |cmds| => e(cmds[i]).value))
  {
    if BuildShellCommandDetails(r, scd).Success? {
      var cmds := BuildShellCommandDetails(r, scd).value;
      OneAfterTheOtherIsMapK(e, cmds);
      MapKSuccess(cmds, e);
      if MapK(cmds, e).Success? {
        var xs := MapK(cmds, e).value;
        assert xs == seq(|cmds|, i requires 0 <= i < |cmds| => e(cmds[i]).value);
      }
    }
  }

  // ------------------------------------ executeOneGeneration, executeAllGenerations

  /** `executeOneGeneration(e)(gen)`: every script of the generation, results in order. */
  function ExecuteOneGeneration(e: ExecuteScriptFn, gen: Generation): Result<GenerationResult, string>
  {
    MapK(gen, e)
  }

  /** One result per script of the generation, in order, when every script resolves. */
  lemma ExecuteOneGenerationInOrder(e: ExecuteScriptFn, gen: Generation)
    ensures ExecuteOneGeneration(e, gen).Success? <==> forall i :: 0 <= i < |gen| ==> e(gen[i]).Success?
    ensures ExecuteOneGeneration(e, gen).Success? ==>
      |ExecuteOneGeneration(e, gen).value| == |gen| &&
      forall i :: 0 <= i < |gen| ==> e(gen[i]) == Success(ExecuteOneGeneration(e, gen).value[i])
  {
    MapKSuccess(gen, e);
  }

  /** The observable steps of `executeAllGenerations`: generation i is
      executed, then its result is given to the reporter. */
  datatype Event = Executed(generation: nat) | Reported(generation: nat)

  datatype Run<R> = Run(outcome: Result<seq<R>, string>, trace: seq<Event>)

  /** `fn(gs, sofar)` of `executeAllGenerations`: the head generation is
      executed, its result reported, and only after the report resolves is
      the rest run with the result appended to `sofar`. */
  function AllGenerationsFrom<G, R>(executeOne: G -> Result<R, string>, reporter: R -> Outcome<string>,
                                    gs: seq<G>, sofar: seq<R>): Run<R>
    decreases |gs|
  {
    if |gs| == 0 then Run(Success(sofar), [])
    else
      match executeOne(gs[0])
      case Failure(e) => Run(Failure(e), [Executed(|sofar|)])
      case Success(res) =>
        match reporter(res)
        case Fail(e) => Run(Failure(e), [Executed(|sofar|), Reported(|sofar|)])
        case Pass =>
          var rest := AllGenerationsFrom(executeOne, reporter, gs[1..], sofar + [res]);
          Run(rest.outcome, [Executed(|sofar|), Reported(|sofar|)] + rest.trace)
  }

  /** `executeAllGenerations(executeOne, reporter)(gs)`. */
  function ExecuteAllGenerations<G, R>(executeOne: G -> Result<R, string>, reporter: R -> Outcome<string>,
                                       gs: seq<G>): Run<R>
  {
    AllGenerationsFrom(executeOne, reporter, gs, [])
  }

  /** Generation i clears when it executes and its report resolves. */
  ghost predicate Clears<G, R>(executeOne: G -> Result<R, string>, reporter: R -> Outcome<string>, g: G)
  {
    executeOne(g).Success? && reporter(executeOne(g).value).Pass?
  }

  lemma {:induction false} TraceAlternatesFrom<G, R>(executeOne: G -> Result<R, string>, reporter: R -> Outcome<string>,
                                                    gs: seq<G>, sofar: seq<R>)
    ensures var t := AllGenerationsFrom(executeOne, reporter, gs, sofar).trace;
      |t| <= 2 * |gs| &&
      forall j :: 0 <= j < |t| ==> t[j] == if j % 2 == 0 then Executed(|sofar| + j / 2) else Reported(|sofar| + j / 2)
    decreases |gs|
  {
    if |gs| > 0 && Clears(executeOne, reporter, gs[0]) {
      var res := executeOne(gs[0]).value;
      TraceAlternatesFrom(executeOne, reporter, gs[1..], sofar + [res]);
      var rest := AllGenerationsFrom(executeOne, reporter, gs[1..], sofar + [res]).trace;
      var t := AllGenerationsFrom(executeOne, reporter, gs, sofar).trace;
      assert t == [Executed(|sofar|), Reported(|sofar|)] + rest;
      forall j | 2 <= j < |t|
        ensures t[j] == if j % 2 == 0 then Executed(|sofar| + j / 2) else Reported(|sofar| + j / 2)
      {
        assert t[j] == rest[j - 2];
        assert (j - 2) % 2 == j % 2 && (j - 2) / 2 + 1 == j / 2;
      }
    }
  }

  /** The trace executes and reports the generations strictly in turn:
      execute 0, report 0, execute 1, report 1, ...; so the reporter is called
      once per generation in order, and generation i+1 is executed only right
      after the report of generation i. */
  lemma TraceAlternates<G, R>(executeOne: G -> Result<R, string>, reporter: R -> Outcome<string>, gs: seq<G>)
    ensures var t := ExecuteAllGenerations(executeOne, reporter, gs).trace;
      |t| <= 2 * |gs| &&
      (forall j :: 0 <= j < |t| ==> t[j] == if j % 2 == 0 then Executed(j / 2) else Reported(j / 2)) &&
      (forall j :: 0 < j < |t| && t[j].Executed? ==> t[j - 1] == Reported(t[j].generation - 1))
  {
    TraceAlternatesFrom(executeOne, reporter, gs, []);
    var t := ExecuteAllGenerations(executeOne, reporter, gs).trace;
    forall j | 0 < j < |t| && t[j].Executed? ensures t[j - 1] == Reported(t[j].generation - 1) {
      assert j % 2 == 0;
      assert (j - 1) % 2 == 1 && (j - 1) / 2 == j / 2 - 1;
    }
  }

  lemma {:induction false} AllGenerationsSucceedFrom<G, R>(executeOne: G -> Result<R, string>, reporter: R -> Outcome<string>,
                                                          gs: seq<G>, sofar: seq<R>)
    ensures var run := AllGenerationsFrom(executeOne, reporter, gs, sofar);
      run.outcome.Success? <==> forall i :: 0 <= i < |gs| ==> Clears(executeOne, reporter, gs[i])
    ensures var run := AllGenerationsFrom(executeOne, reporter, gs, sofar);
      run.outcome.Success? ==>
        |run.outcome.value| == |sofar| + |gs| && run.outcome.value[..|sofar|] == sofar &&
        |run.trace| == 2 * |gs| &&
        forall i :: 0 <= i < |gs| ==> run.outcome.value[|sofar| + i] == executeOne(gs[i]).value
    decreases |gs|
  {
    if |gs| > 0 && Clears(executeOne, reporter, gs[0]) {
      var res := executeOne(gs[0]).value;
      AllGenerationsSucceedFrom(executeOne, reporter, gs[1..], sofar + [res]);
      var run := AllGenerationsFrom(executeOne, reporter, gs, sofar);
      if forall i :: 0 <= i < |gs[1..]| ==> Clears(executeOne, reporter, gs[1..][i]) {
        var v := run.outcome.value;
        assert v[..|sofar| + 1] == sofar + [res];
        assert v[..|sofar|] == (sofar + [res])[..|sofar|];
        forall i | 0 <= i < |gs| ensures v[|sofar| + i] == executeOne(gs[i]).value {
          if i > 0 {
            assert gs[1..][i - 1] == gs[i];
          }
        }
      }
      if forall i :: 0 <= i < |gs| ==> Clears(executeOne, reporter, gs[i]) {
        assert forall i :: 0 <= i < |gs[1..]| ==> Clears(executeOne, reporter, gs[1..][i]) by {
          forall i | 0 <= i < |gs[1..]| ensures Clears(executeOne, reporter, gs[1..][i]) {
            assert gs[1..][i] == gs[i + 1];
          }
        }
      } else {
        var i :| 0 <= i < |gs| && !Clears(executeOne, reporter, gs[i]);
        assert gs[1..][i - 1] == gs[i];
      }
    }
  }

  /** executeAllGenerations resolves exactly when every generation executes
      and is reported, with one result per generation in input order (`[]`
      for no generations) and one execute and one report event each. */
  lemma AllGenerationsSucceed<G, R>(executeOne: G -> Result<R, string>, reporter: R -> Outcome<string>, gs: seq<G>)
    ensures var run := ExecuteAllGenerations(executeOne, reporter, gs);
      run.outcome.Success? <==> forall i :: 0 <= i < |gs| ==> Clears(executeOne, reporter, gs[i])
    ensures var run := ExecuteAllGenerations(executeOne, reporter, gs);
      run.outcome.Success? ==>
        |run.outcome.value| == |gs| && |run.trace| == 2 * |gs| &&
        forall i :: 0 <= i < |gs| ==> run.outcome.value[i] == executeOne(gs[i]).value
    ensures gs == [] ==> ExecuteAllGenerations(executeOne, reporter, gs) == Run(Success([]), [])
  {
    AllGenerationsSucceedFrom(executeOne, reporter, gs, []);
  }

  lemma {:induction false} AllGenerationsStopFrom<G, R>(executeOne: G -> Result<R, string>, reporter: R -> Outcome<string>,
                                                       gs: seq<G>, sofar: seq<R>) returns (k: nat)
    requires AllGenerationsFrom(executeOne, reporter, gs, sofar).outcome.Failure?
    ensures var run := AllGenerationsFrom(executeOne, reporter, gs, sofar);
      k < |gs| && (forall j :: 0 <= j < k ==> Clears(executeOne, reporter, gs[j])) &&
      ((executeOne(gs[k]).Failure? && run.outcome.error == executeOne(gs[k]).error && |run.trace| == 2 * k + 1) ||
       (executeOne(gs[k]).Success? && reporter(executeOne(gs[k]).value).Fail? &&
        run.outcome.error == reporter(executeOne(gs[k]).value).error && |run.trace| == 2 * k + 2))
    decreases |gs|
  {
    if Clears(executeOne, reporter, gs[0]) {
      var res := executeOne(gs[0]).value;
      var k' := AllGenerationsStopFrom(executeOne, reporter, gs[1..], sofar + [res]);
      k := k' + 1;
      forall j | 0 <= j < k ensures Clears(executeOne, reporter, gs[j]) {
        if j > 0 {
          assert gs[1..][j - 1] == gs[j];
        }
      }
      assert gs[1..][k'] == gs[k];
    } else {
      k := 0;
    }
  }

  /** When executeAllGenerations rejects, generation k is the first that did
      not clear: either its execution rejected (and neither its report nor any
      later generation happened) or its report rejected (and no later
      generation was executed); the rejection is that step's. */
  lemma AllGenerationsStop<G, R>(executeOne: G -> Result<R, string>, reporter: R -> Outcome<string>, gs: seq<G>)
    returns (k: nat)
    requires ExecuteAllGenerations(executeOne, reporter, gs).outcome.Failure?
    ensures var run := ExecuteAllGenerations(executeOne, reporter, gs);
      k < |gs| && (forall j :: 0 <= j < k ==> Clears(executeOne, reporter, gs[j])) &&
      ((executeOne(gs[k]).Failure? && run.outcome.error == executeOne(gs[k]).error && |run.trace| == 2 * k + 1) ||
       (executeOne(gs[k]).Success? && reporter(executeOne(gs[k]).value).Fail? &&
        run.outcome.error == reporter(executeOne(gs[k]).value).error && |run.trace| == 2 * k + 2))
  {
    k := AllGenerationsStopFrom(executeOne, reporter, gs, []);
  }

  // -------------------------------------------------- jsOrShellFinder, timeIt, make

  /** `s.startsWith(prefix)`. */
  predicate StartsWith(s: string, prefix: string)
  {
    |prefix| <= |s| && s[..|prefix|] == prefix
  }

  /** `s.substring(n)` for n >= 0: clamped to the end. */
  function Substring(s: string, n: nat): string
  {
    if n <= |s| then s[n..] else ""
  }

  /** `jsOrShellFinder(js, shell)(c)`. */
  function JsOrShellFinder<X>(js: X, shell: X, c: ShellCommandDetails): X
  {
    if StartsWith(c.details.commandString, "js:") then js else shell
  }

  /** The JS executor is chosen exactly for a command string beginning with
      `js:`, and then the text execJS evaluates is what follows that prefix. */
  lemma JsOrShellFinderDispatch<X>(js: X, shell: X, c: ShellCommandDetails)
    requires js != shell
    ensures JsOrShellFinder(js, shell, c) == js <==>
      |c.details.commandString| >= 3 && c.details.commandString[..3] == "js:"
    ensures JsOrShellFinder(js, shell, c) == js ==>
      "js:" + Substring(c.details.commandString, 3) == c.details.commandString
  {
    if JsOrShellFinder(js, shell, c) == js {
      var cs := c.details.commandString;
      assert cs == cs[..3] + cs[3..];
    }
  }

  /** `timeIt(e)`: the raw result as a one-element list carrying `details: d`. */
  function TimeIt(e: RawCommandExecutor): ExecuteCommand
  {
    (d: ShellCommandDetails) =>
      match e(d)
      case Failure(x) => Failure(x)
      case Success(res) => Success([ShellResult(res.err, d)])
  }

  lemma TimeItSingleton(e: RawCommandExecutor, d: ShellCommandDetails)
    ensures TimeIt(e)(d).Success? <==> e(d).Success?
    ensures e(d).Failure? ==> TimeIt(e)(d).error == e(d).error
    ensures TimeIt(e)(d).Success? ==>
      |TimeIt(e)(d).value| == 1 && TimeIt(e)(d).value[0].details == d && TimeIt(e)(d).value[0].err == e(d).value.err
  {
  }

  /** `make(shell, js, timeIt, ...decorators)`; `decorate` is the composition
      of the decorators, whose order is not part of this model. */
  function Make(shell: RawCommandExecutor, js: RawCommandExecutor, timeIt: RawCommandExecutor -> ExecuteCommand,
                decorate: ExecuteCommand -> ExecuteCommand): ExecuteCommand
  {
    var decoratedShell := decorate(timeIt(shell));
    var decoratedJs := decorate(timeIt(js));
    (c: ShellCommandDetails) => JsOrShellFinder(decoratedJs, decoratedShell, c)(c)
  }

  /** A command runs through the decorated, timed JS executor when its
      string begins with `js:`, and through the decorated, timed shell
      executor otherwise. */
  lemma MakeDispatches(shell: RawCommandExecutor, js: RawCommandExecutor, timeIt: RawCommandExecutor -> ExecuteCommand,
                       decorate: ExecuteCommand -> ExecuteCommand, c: ShellCommandDetails)
    ensures StartsWith(c.details.commandString, "js:") ==> Make(shell, js, timeIt, decorate)(c) == decorate(timeIt(js))(c)
    ensures !StartsWith(c.details.commandString, "js:") ==> Make(shell, js, timeIt, decorate)(c) == decorate(timeIt(shell))(c)
  {
    var chosen := JsOrShellFinder(decorate(timeIt(js)), decorate(timeIt(shell)), c);
    assert Make(shell, js, timeIt, decorate)(c) == chosen(c);
  }

  // ------------------------------------------------------------ execInSpawn

  /** The `err` that `execInSpawn` resolves with when the child closes with
      `code`, as written: `code == 0 ? null : code`. Node reports a child
      killed by a signal with a null code, and `null == 0` is false, so the
      result is `code` itself, which is null. */
  function SpawnCloseResultAsWritten(code: Option<int>): ErrValue
  {
    match code
    case Some(c) => if c == 0 then NoError else ExitCode(c)
    case None => NoError
  }

  /** A child killed by a signal is reported with `err` null, like a success. */
  lemma KilledChildLooksSuccessful()
    ensures SpawnCloseResultAsWritten(None) == NoError
    ensures SpawnCloseResultAsWritten(None) == SpawnCloseResultAsWritten(Some(0))
    ensures ExecInSpawnResult(None) == ExecInSpawnResult(Some(0)) == RawShellResult(NoError)
  {
  }

  /** The evidently intended mapping: `err` is null only for exit code 0. */
  function SpawnCloseResult(code: Option<int>): ErrValue
  {
    match code
    case Some(c) => if c == 0 then NoError else ExitCode(c)
    case None => Signalled
  }

  /** `err` is null if and only if the exit code is 0, a non-zero code is
      passed through, and the two mappings agree whenever there is a code. */
  lemma SpawnCloseResultIsNullExactlyOnZero(code: Option<int>)
    ensures SpawnCloseResult(code) == NoError <==> code == Some(0)
    ensures code.Some? && code.value != 0 ==> SpawnCloseResult(code) == ExitCode(code.value)
    ensures code.Some? ==> SpawnCloseResult(code) == SpawnCloseResultAsWritten(code)
    ensures ExecInSpawnResultCorrected(code).err == NoError <==> code == Some(0)
    ensures code.None? ==> ExecInSpawnResultCorrected(code).err == Signalled
  {
  }

  /** What `execInSpawn` resolves with once the child has closed, as written. */
  function ExecInSpawnResult(code: Option<int>): RawShellResult
  {
    RawShellResult(SpawnCloseResultAsWritten(code))
  }

  /** What `execInSpawn` resolves with under the corrected mapping. */
  function ExecInSpawnResultCorrected(code: Option<int>): RawShellResult
  {
    RawShellResult(SpawnCloseResult(code))
  }

  // ----------------------------------------- executeInChangedDir/Env, execJS

  /** The ambient Node process state that `execJS` changes and restores:
      the working directory and the environment. `directories` are the
      directories `process.chdir` can enter. */
  class Process {
    var cwd: string
    var env: Envs
    const directories: set<string>

    ghost predicate Valid()
      reads this
    {
      cwd in directories
    }

    constructor (cwd: string, env: Envs, directories: set<string>)
      requires cwd in directories
      ensures this.cwd == cwd && this.env == env && this.directories == directories && Valid()
    {
      this.cwd := cwd;
      this.env := env;
      this.directories := directories;
    }

    /** `process.chdir(dir)`: throws when `dir` cannot be entered. */
    method Chdir(dir: string) returns (r: Result<(), JsError>)
      modifies this
      ensures env == old(env)
      ensures dir in directories ==> cwd == dir && r == Success(())
      ensures dir !in directories ==> cwd == old(cwd) && r == Failure(ChdirFailed(dir))
    {
      if dir in directories {
        cwd := dir;
        r := Success(());
      } else {
        r := Failure(ChdirFailed(dir));
      }
    }
  }

  /** What a block run with the directory changed to `dir` gives, as a block
      of its own: a failed chdir throws, otherwise the block sees `dir`. */
  function InChangedDir<To>(directories: set<string>, dir: string, block: (string, Envs) -> Result<To, JsError>)
    : (string, Envs) -> Result<To, JsError>
  {
    (cwd: string, env: Envs) => if dir in directories then block(dir, env) else Failure(ChdirFailed(dir))
  }

  /** `executeInChangedDir(dir, block)`: whatever happens, the old directory
      is entered again in the `finally`. */
  method ExecuteInChangedDir<To>(proc: Process, dir: string, block: (string, Envs) -> Result<To, JsError>)
    returns (r: Result<To, JsError>)
    requires proc.Valid()
    modifies proc
    ensures proc.Valid() && proc.cwd == old(proc.cwd) && proc.env == old(proc.env)
    ensures r == InChangedDir(proc.directories, dir, block)(old(proc.cwd), old(proc.env))
  {
    var oldDir := proc.cwd;
    var changed := proc.Chdir(dir);
    if changed.Failure? {
      r := Failure(changed.error);
    } else {
      r := block(proc.cwd, proc.env);
    }
    var restored := proc.Chdir(oldDir);
  }

  /** The environment a block sees: `env` when it is defined (any object is
      truthy), the process's own otherwise. */
  function EnvSeen(env: Option<Envs>, processEnv: Envs): Envs
  {
    if env.Some? then env.value else processEnv
  }

  /** `executeInChangedEnv(env, block)`: `process.env` is replaced only for a
      defined `env`, and the old environment is put back in the `finally`. */
  method ExecuteInChangedEnv<To>(proc: Process, env: Option<Envs>, block: (string, Envs) -> Result<To, JsError>)
    returns (r: Result<To, JsError>)
    modifies proc
    ensures proc.cwd == old(proc.cwd) && proc.env == old(proc.env)
    ensures r == block(old(proc.cwd), EnvSeen(env, old(proc.env)))
  {
    var oldEnv := proc.env;
    if env.Some? {
      proc.env := env.value;
    }
    r := block(proc.cwd, proc.env);
    proc.env := oldEnv;
  }

  /** A value the evaluated code returns. */
  datatype JsValue = JsUndefined | JsNull | Val(text: string)

  /** `v.toString()`: throws on undefined and null. */
  function JsToString(v: JsValue): Result<string, JsError>
  {
    match v
    case Val(t) => Success(t)
    case _ => Failure(ToStringOfNothing)
  }

  /** The JavaScript engine: `Function(code)()` run in a directory and an
      environment, and the template rendering `${e}` of a thrown value. */
  datatype JsRuntime = JsRuntime(evaluate: (string, string, Envs) -> Result<JsValue, JsError>, show: JsError -> string)

  /** The code execJS hands to `Function`. */
  function JsCode(commandString: string): string
  {
    "return  " + Substring(commandString, 3)
  }

  /** The block execJS runs: evaluate the code, then turn the value it
      returns into text. */
  function EvalBlock(rt: JsRuntime, code: string): (string, Envs) -> Result<string, JsError>
  {
    (cwd: string, env: Envs) =>
      match rt.evaluate(code, cwd, env)
      case Failure(e) => Failure(e)
      case Success(v) => JsToString(v)
  }

  /** What execJS computes: the block run in the command's directory, inside
      the command's environment change. */
  function JsRun(rt: JsRuntime, directories: set<string>, d: ShellCommandDetails, cwd: string, processEnv: Envs)
    : Result<string, JsError>
  {
    InChangedDir(directories, d.details.directory, EvalBlock(rt, JsCode(d.details.commandString)))
      (cwd, EnvSeen(d.details.env, processEnv))
  }

  /** The one line execJS writes. */
  function JsLine(rt: JsRuntime, commandString: string, x: Result<string, JsError>): string
  {
    match x
    case Success(result) => result + "\n"
    case Failure(e) => "Error: " + rt.show(e) + " Command was [" + commandString + "]" + "\n"
  }

  /** The `err` execJS resolves with. */
  function JsErr(x: Result<string, JsError>): ErrValue
  {
    match x
    case Success(_) => NoError
    case Failure(e) => JsThrown(e)
  }

  /** The code is evaluated in the command's directory with the command's
      env (or the process's when it has none), and `err` is null exactly when
      the chdir, the evaluation and the `toString` all succeed (an undefined
      or null value fails in `toString`); the line is the result on success
      and the error followed by the command on failure, and ends the line in
      both cases. */
  lemma JsRunSemantics(rt: JsRuntime, directories: set<string>, d: ShellCommandDetails, cwd: string, processEnv: Envs)
    ensures var x := JsRun(rt, directories, d, cwd, processEnv);
      var ev := rt.evaluate(JsCode(d.details.commandString), d.details.directory, EnvSeen(d.details.env, processEnv));
      (d.details.directory !in directories ==> x == Failure(ChdirFailed(d.details.directory))) &&
      (d.details.directory in directories ==>
        (x.Success? <==> ev.Success? && ev.value.Val?) &&
        (x.Success? ==> x.value == ev.value.text) &&
        (ev.Failure? ==> x == Failure(ev.error)) &&
        (ev.Success? && !ev.value.Val? ==> x == Failure(ToStringOfNothing)))
    ensures var x := JsRun(rt, directories, d, cwd, processEnv);
      var line := JsLine(rt, d.details.commandString, x);
      (JsErr(x) == NoError <==> x.Success?) &&
      |line| > 0 && line[|line| - 1] == '\n' &&
      (x.Success? ==> line == x.value + "\n") &&
      (x.Failure? ==> StartsWith(line, "Error: ")) &&
      (x.Failure? ==> line == "Error: " + rt.show(x.error) + " Command was [" + d.details.commandString + "]\n")
  {
    var x := JsRun(rt, directories, d, cwd, processEnv);
    var line := JsLine(rt, d.details.commandString, x);
    if x.Failure? {
      assert line == "Error: " + (rt.show(x.error) + " Command was [" + d.details.commandString + "]" + "\n");
    }
  }

  /** The streams of every unit, and what was written to them (`writeTo`). */
  class StreamLog {
    var writes: seq<(seq<StreamId>, string)>

    constructor ()
      ensures writes == []
    {
      writes := [];
    }

    method WriteTo(streams: seq<StreamId>, data: string)
      modifies this
      ensures writes == old(writes) + [(streams, data)]
    {
      writes := writes + [(streams, data)];
    }
  }

  /** `execJS(d)`: always resolves, with `err` null on success and the thrown
      value otherwise; writes exactly one line; leaves the working directory
      and the environment as they were. */
  method ExecJS(proc: Process, log: StreamLog, rt: JsRuntime, d: ShellCommandDetails) returns (res: RawShellResult)
    requires proc.Valid()
    modifies proc, log
    ensures proc.Valid() && proc.cwd == old(proc.cwd) && proc.env == old(proc.env)
    ensures var x := JsRun(rt, proc.directories, d, old(proc.cwd), old(proc.env));
      res == RawShellResult(JsErr(x)) &&
      log.writes == old(log.writes) + [(d.streams, JsLine(rt, d.details.commandString, x))]
  {
    // the environment change of `executeInChangedEnv`, around the directory change
    var oldEnv := proc.env;
    if d.details.env.Some? {
      proc.env := d.details.env.value;
    }
    var x := ExecuteInChangedDir(proc, d.details.directory, EvalBlock(rt, JsCode(d.details.commandString)));
    proc.env := oldEnv;
    log.WriteTo(d.streams, JsLine(rt, d.details.commandString, x));
    res := RawShellResult(JsErr(x));
  }
}
