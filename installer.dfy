/** Installation logic (src/installer.js): the external commands that install
    and remove a package in each ecosystem, the version lookup after an
    install, the tool check, and the exit-code contract of running a command.
    Spawning processes is replaced by a `Host` that answers, for each
    command, how the child ended and what it printed, and for each tool name
    whether it is on the PATH. */
module Installer {
  import opened Wrappers
  import opened Strings
  import Detector

  /** A command line as passed to `spawn(command, args)`. */
  datatype Cmd = Cmd(program: string, args: seq<string>)

  /** How a child ended: a 'close' event with an exit code, a 'close' with a
      null code (killed by a signal), or an 'error' event. */
  datatype ChildExit = Exited(code: int) | Killed | SpawnError

  /** The environment the process runner sees. */
  datatype Host = Host(
    onPath: string -> bool,       // `which <tool>` succeeds
    exitOf: Cmd -> ChildExit,     // how running the command ends
    stdoutOf: Cmd -> string)      // what the command prints, when captured

  datatype Failure = Unsupported(projectType: string) | CommandFailed(exit: ChildExit)

  /** `executeCommand`: resolves exactly when the child closes with code 0;
      any other code, a signal or a spawn error rejects. */
  function ExecuteCommand(host: Host, cmd: Cmd): (r: Result<(), Failure>)
    ensures r.Ok? <==> host.exitOf(cmd) == Exited(0)
    ensures r.Err? ==> r.error == CommandFailed(host.exitOf(cmd))
  {
    match host.exitOf(cmd)
    case Exited(0) => Ok(())
    case other => Err(CommandFailed(other))
  }

  /** The `validateTools` tool map. */
  function ToolFor(projectType: string): (r: Option<string>)
    ensures r.Some? <==> Detector.ParseEcosystem(projectType).Some?
  {
    match Detector.ParseEcosystem(projectType)
    case Some(Node) => Some("npm")
    case Some(Python) => Some("pip")
    case Some(Rust) => Some("cargo")
    case Some(Go) => Some("go")
    case None => None
  }

  /** `validateTools`: false for a type outside the map, otherwise whether
      the mapped tool is on the PATH. */
  function ValidateTools(projectType: string, host: Host): (ok: bool)
    ensures ok <==> ToolFor(projectType).Some? && host.onPath(ToolFor(projectType).value)
    ensures !(projectType in {"node", "python", "rust", "go"}) ==> !ok
  {
    match ToolFor(projectType)
    case None => false
    case Some(tool) => host.onPath(tool)
  }

  const FallbackVersion: string := "1.0.0"

  /** `output.trim().split('\n').pop() || '1.0.0'`: the last line of the
      trimmed output. The fallback is taken only for output that is all
      whitespace, since trimmed output never ends in a line break. */
  function VersionFromOutput(output: string): (v: string)
    ensures v != ""
    ensures Trim(output) == [] ==> v == FallbackVersion
    ensures Trim(output) != [] ==>
      var t := Trim(output);
      |v| <= |t| && v == t[|t| - |v|..] && '\n' !in v &&
      (|v| < |t| ==> t[|t| - |v| - 1] == '\n')
  {
    var last := Last(Split(Trim(output), '\n'));
    LastLine(output);
    if last == "" then FallbackVersion else last
  }

  /** The last line of the trimmed output is a suffix without line breaks,
      preceded by one when shorter, and empty only when the trimmed output
      is: trimmed output never ends in a line break. */
  lemma LastLine(output: string)
    ensures var t := Trim(output); var v := Last(Split(t, '\n'));
      (v == [] <==> t == []) && |v| <= |t| && v == t[|t| - |v|..] && '\n' !in v &&
      (|v| < |t| ==> t[|t| - |v| - 1] == '\n')
  {
    TrimmedEndsWithoutBreak(output);
    LastLineOf(Trim(output));
  }

  /** Trimmed output never ends in a line break. */
  lemma TrimmedEndsWithoutBreak(output: string)
    ensures var t := Trim(output); t != [] ==> t[|t| - 1] != '\n'
  {
    var t := Trim(output);
    if t != [] { assert !IsJsWhitespace(t[|t| - 1]); }
  }

  lemma LastLineOf(t: string)
    requires t != [] ==> t[|t| - 1] != '\n'
    ensures var v := Last(Split(t, '\n'));
      (v == [] <==> t == []) && |v| <= |t| && v == t[|t| - |v|..] && '\n' !in v &&
      (|v| < |t| ==> t[|t| - |v| - 1] == '\n')
  {
    SplitLast(t, '\n');
  }

  /** The command `getLatestVersion` spawns, with output captured. */
  function VersionQuery(moduleName: string, projectType: string): Option<Cmd> {
    if projectType == "node" then Some(Cmd("npm", ["view", moduleName, "version"]))
    else if projectType == "python" then Some(Cmd("pip", ["index", "versions", moduleName]))
    else None
  }

  datatype VersionLookup = VersionLookup(cmds: seq<Cmd>, version: string)

  /** `getLatestVersion`: never fails; `1.0.0` for a type other than node
      and python, on a non-zero exit and on a spawn error. */
  function GetLatestVersion(moduleName: string, projectType: string, host: Host): (r: VersionLookup)
    ensures r.version != ""
    ensures VersionQuery(moduleName, projectType).None? ==> r == VersionLookup([], FallbackVersion)
    ensures VersionQuery(moduleName, projectType).Some? ==>
      var q := VersionQuery(moduleName, projectType).value;
      r.cmds == [q] &&
      r.version == if host.exitOf(q) == Exited(0) then VersionFromOutput(host.stdoutOf(q)) else FallbackVersion
  {
    match VersionQuery(moduleName, projectType)
    case None => VersionLookup([], FallbackVersion)
    case Some(q) =>
      match host.exitOf(q)
      case Exited(0) => VersionLookup([q], VersionFromOutput(host.stdoutOf(q)))
      case _ => VersionLookup([q], FallbackVersion)
  }

  /** The command `installPackage` runs; an unknown type throws. */
  function InstallArgs(moduleName: string, projectType: string, global: bool, dev: bool): (r: Result<Cmd, Failure>)
    ensures r.Err? <==> Detector.ParseEcosystem(projectType).None?
    ensures r.Err? ==> r.error == Unsupported(projectType)
    ensures r.Ok? ==> ToolFor(projectType) == Some(r.value.program)
    ensures r.Ok? ==> |r.value.args| >= 2 && r.value.args[|r.value.args| - 1] == moduleName
    ensures projectType == "node" ==>
      r.Ok? && r.value.args ==
      ["install"] + (if global then ["-g"] else []) + (if dev && !global then ["--save-dev"] else []) + [moduleName]
    ensures projectType == "python" ==>
      r.Ok? && r.value.args == ["install"] + (if global then ["--user"] else []) + [moduleName]
    ensures projectType == "rust" ==> r == Ok(Cmd("cargo", ["add", moduleName]))
    ensures projectType == "go" ==> r == Ok(Cmd("go", ["get", moduleName]))
  {
    match Detector.ParseEcosystem(projectType)
    case Some(Node) =>
      var args := ["install"];
      var args := if global then args + ["-g"] else args;
      var args := if dev && !global then args + ["--save-dev"] else args;
      Ok(Cmd("npm", args + [moduleName]))
    case Some(Python) =>
      var args := ["install"];
      var args := if global then args + ["--user"] else args;
      Ok(Cmd("pip", args + [moduleName]))
    case Some(Rust) => Ok(Cmd("cargo", ["add", moduleName]))
    case Some(Go) => Ok(Cmd("go", ["get", moduleName]))
    case None => Err(Unsupported(projectType))
  }

  /** Only npm looks at the `dev` flag, and only when not installing
      globally; cargo and go ignore `global` as well. */
  lemma InstallFlagsIgnored(moduleName: string, projectType: string, global: bool)
    ensures projectType != "node" || global ==>
      InstallArgs(moduleName, projectType, global, true) == InstallArgs(moduleName, projectType, global, false)
    ensures projectType in {"rust", "go"} ==>
      InstallArgs(moduleName, projectType, true, true) == InstallArgs(moduleName, projectType, false, false)
  {
  }

  /** A three-word command line joined with spaces. */
  lemma JoinThree(a: string, b: string, c: string)
    ensures Join([a, b, c], ' ') == a + " " + b + " " + c
  {
    assert [a, b, c][1..] == [b, c];
    assert [b, c][1..] == [c];
    assert Join([b, c], ' ') == b + [' '] + c;
    assert Join([a, b, c], ' ') == a + [' '] + (b + [' '] + c);
    assert " " == [' '];
  }

  /** The string `getInstallCommand` builds is, word for word, the command
      `installPackage` runs for a plain local install, and the two reject
      the same types. */
  lemma InstallCommandAgreesWithArgs(moduleName: string, projectType: string)
    ensures Detector.GetInstallCommand(projectType, moduleName).Ok? <==> InstallArgs(moduleName, projectType, false, false).Ok?
    ensures InstallArgs(moduleName, projectType, false, false).Ok? ==>
      var c := InstallArgs(moduleName, projectType, false, false).value;
      Detector.GetInstallCommand(projectType, moduleName).value == Join([c.program] + c.args, ' ')
  {
    if projectType in {"node", "python", "rust", "go"} {
      var c := InstallArgs(moduleName, projectType, false, false).value;
      TypeLineAgrees(moduleName, projectType);
      assert Detector.GetInstallCommand(projectType, moduleName).value == Join([c.program] + c.args, ' ');
    }
  }

  /** One known type at a time: the three words of the install command. */
  lemma TypeLineAgrees(moduleName: string, projectType: string)
    requires projectType in {"node", "python", "rust", "go"}
    ensures Detector.GetInstallCommand(projectType, moduleName).Ok? && InstallArgs(moduleName, projectType, false, false).Ok?
    ensures Detector.GetInstallCommand(projectType, moduleName).value ==
      Join([InstallArgs(moduleName, projectType, false, false).value.program] +
           InstallArgs(moduleName, projectType, false, false).value.args, ' ')
  {
    if projectType in {"node", "python"} { InstallVerbLineAgrees(moduleName, projectType); }
    else { OwnVerbLineAgrees(moduleName, projectType); }
  }

  /** npm and pip: `<tool> install <module>`. */
  lemma InstallVerbLineAgrees(moduleName: string, projectType: string)
    requires projectType in {"node", "python"}
    ensures Detector.GetInstallCommand(projectType, moduleName).Ok? && InstallArgs(moduleName, projectType, false, false).Ok?
    ensures Detector.GetInstallCommand(projectType, moduleName).value ==
      Join([InstallArgs(moduleName, projectType, false, false).value.program] +
           InstallArgs(moduleName, projectType, false, false).value.args, ' ')
  {
    var program := if projectType == "node" then "npm" else "pip";
    assert InstallArgs(moduleName, projectType, false, false).value.args == ["install", moduleName];
    assert InstallArgs(moduleName, projectType, false, false).value.program == program;
    assert program + " " + "install" + " " == if projectType == "node" then "npm install " else "pip install ";
    LineAgrees(moduleName, projectType, program, "install");
  }

  /** cargo and go: `cargo add <module>`, `go get <module>`. */
  lemma OwnVerbLineAgrees(moduleName: string, projectType: string)
    requires projectType in {"rust", "go"}
    ensures Detector.GetInstallCommand(projectType, moduleName).Ok? && InstallArgs(moduleName, projectType, false, false).Ok?
    ensures Detector.GetInstallCommand(projectType, moduleName).value ==
      Join([InstallArgs(moduleName, projectType, false, false).value.program] +
           InstallArgs(moduleName, projectType, false, false).value.args, ' ')
  {
    var program, verb := if projectType == "rust" then "cargo" else "go", if projectType == "rust" then "add" else "get";
    assert program + " " + verb + " " == if projectType == "rust" then "cargo add " else "go get ";
    LineAgrees(moduleName, projectType, program, verb);
  }

  lemma LineAgrees(moduleName: string, projectType: string, program: string, verb: string)
    requires InstallArgs(moduleName, projectType, false, false) == Ok(Cmd(program, [verb, moduleName]))
    requires Detector.GetInstallCommand(projectType, moduleName) == Ok(program + " " + verb + " " + moduleName)
    ensures Detector.GetInstallCommand(projectType, moduleName).value ==
      Join([program] + InstallArgs(moduleName, projectType, false, false).value.args, ' ')
  {
    assert [program] + [verb, moduleName] == [program, verb, moduleName];
    JoinThree(program, verb, moduleName);
  }

  /** For node and rust `getUninstallCommand` spells out the command
      `uninstallPackage` runs; go has a string but runs nothing. */
  lemma UninstallCommandAgreesWithArgs(moduleName: string, projectType: string)
    ensures projectType in {"node", "rust"} ==>
      UninstallArgs(moduleName, projectType, false).Ok? && UninstallArgs(moduleName, projectType, false).value.Some? &&
      var c := UninstallArgs(moduleName, projectType, false).value.value;
      Detector.GetUninstallCommand(projectType, moduleName) == Ok(Join([c.program] + c.args, ' '))
    ensures projectType == "go" ==>
      UninstallArgs(moduleName, projectType, false) == Ok(None) && Detector.GetUninstallCommand(projectType, moduleName).Ok?
  {
    if projectType in {"node", "rust"} {
      var c := UninstallArgs(moduleName, projectType, false).value.value;
      assert [c.program] + c.args == [c.program, c.args[0], c.args[1]];
      JoinThree(c.program, c.args[0], c.args[1]);
    }
  }

  /** The commands run and the outcome of a step that may fail. */
  datatype Step<T> = Step(cmds: seq<Cmd>, result: Result<T, Failure>)

  /** `installPackage`: the install command, then, if it succeeded, the
      version lookup, whose answer is the result. */
  function InstallPackage(moduleName: string, projectType: string, global: bool, dev: bool, host: Host): (r: Step<string>)
    ensures InstallArgs(moduleName, projectType, global, dev).Err? ==>
      r == Step([], Err(Unsupported(projectType)))
    ensures InstallArgs(moduleName, projectType, global, dev).Ok? ==>
      var cmd := InstallArgs(moduleName, projectType, global, dev).value;
      |r.cmds| >= 1 && r.cmds[0] == cmd &&
      (r.result.Ok? <==> host.exitOf(cmd) == Exited(0)) &&
      (r.result.Err? ==> r.cmds == [cmd] && r.result.error == CommandFailed(host.exitOf(cmd))) &&
      (r.result.Ok? ==> var q := GetLatestVersion(moduleName, projectType, host);
                          r.cmds == [cmd] + q.cmds && r.result.value == q.version)
    ensures r.result.Ok? ==> r.result.value != ""
    ensures forall i :: 0 <= i < |r.cmds| ==> Some(r.cmds[i].program) == ToolFor(projectType)
  {
    match InstallArgs(moduleName, projectType, global, dev)
    case Err(e) => Step([], Err(e))
    case Ok(cmd) =>
      match ExecuteCommand(host, cmd)
      case Err(e) => Step([cmd], Err(e))
      case Ok(_) =>
        var q := GetLatestVersion(moduleName, projectType, host);
        Step([cmd] + q.cmds, Ok(q.version))
  }

  /** The command `uninstallPackage` runs: none for go, which only prints a
      hint and returns; an unknown type throws. */
  function UninstallArgs(moduleName: string, projectType: string, global: bool): (r: Result<Option<Cmd>, Failure>)
    ensures r.Err? <==> Detector.ParseEcosystem(projectType).None?
    ensures r.Err? ==> r.error == Unsupported(projectType)
    ensures r.Ok? && r.value.Some? ==> ToolFor(projectType) == Some(r.value.value.program)
    ensures projectType == "node" ==>
      r == Ok(Some(Cmd("npm", ["uninstall"] + (if global then ["-g"] else []) + [moduleName])))
    ensures projectType == "python" ==> r == Ok(Some(Cmd("pip", ["uninstall", "-y", moduleName])))
    ensures projectType == "rust" ==> r == Ok(Some(Cmd("cargo", ["remove", moduleName])))
    ensures projectType == "go" ==> r == Ok(None)
  {
    match Detector.ParseEcosystem(projectType)
    case Some(Node) =>
      Ok(Some(Cmd("npm", ["uninstall"] + (if global then ["-g"] else []) + [moduleName])))
    case Some(Python) => Ok(Some(Cmd("pip", ["uninstall", "-y", moduleName])))
    case Some(Rust) => Ok(Some(Cmd("cargo", ["remove", moduleName])))
    case Some(Go) => Ok(None)
    case None => Err(Unsupported(projectType))
  }

  /** `uninstallPackage`. */
  function UninstallPackage(moduleName: string, projectType: string, global: bool, host: Host): (r: Step<()>)
    ensures UninstallArgs(moduleName, projectType, global).Err? ==> r == Step([], Err(Unsupported(projectType)))
    ensures UninstallArgs(moduleName, projectType, global) == Ok(None) ==> r == Step([], Ok(()))
    ensures UninstallArgs(moduleName, projectType, global).Ok? && UninstallArgs(moduleName, projectType, global).value.Some? ==>
      var cmd := UninstallArgs(moduleName, projectType, global).value.value;
      r.cmds == [cmd] && (r.result.Ok? <==> host.exitOf(cmd) == Exited(0))
  {
    match UninstallArgs(moduleName, projectType, global)
    case Err(e) => Step([], Err(e))
    case Ok(None) => Step([], Ok(()))
    case Ok(Some(cmd)) => Step([cmd], ExecuteCommand(host, cmd))
  }
}
