/** `taiz dev` (src/commands/dev.js). */
module DevCmd {
  import opened Wrappers
  import opened Installer
  import opened ConfigStore
  import opened Dispatch
  import opened Detector

  /** The entry files tried, in order, for a Python project. */
  const PythonEntryFiles: seq<string> := ["app.py", "main.py", "server.py", "manage.py"]

  /** `python <file>`, with Django's `runserver` for `manage.py`. */
  function PythonEntry(file: string): (c: Cmd)
    ensures c.program == "python" && |c.args| >= 1 && c.args[0] == file
    ensures |c.args| == 2 <==> file == "manage.py"
    ensures |c.args| == 2 ==> c.args[1] == "runserver"
  {
    Cmd("python", [file] + if file == "manage.py" then ["runserver"] else [])
  }

  /** The `switch` on the primary type, lines 52-116. */
  function DevTarget(e: Ecosystem, pkg: PackageJson, dir: set<string>): (r: Plan)
    ensures e == Node ==>
      r == (if pkg.Unreadable? then Abort
            else if "dev" in pkg.scripts then Exec(Cmd("npm", ["run", "dev"]))
            else if "start" in pkg.scripts then Exec(Cmd("npm", ["run", "start"]))
            else Skip(NoEntryPoint))
    ensures e == Python ==>
      (r == Skip(NoEntryPoint) <==> forall i :: 0 <= i < |PythonEntryFiles| ==> PythonEntryFiles[i] !in dir) &&
      (r.Exec? ==> exists i :: 0 <= i < |PythonEntryFiles| && PythonEntryFiles[i] in dir &&
                     r.cmd == PythonEntry(PythonEntryFiles[i]) &&
                     forall j :: 0 <= j < i ==> PythonEntryFiles[j] !in dir)
    ensures e == Python ==> r.Exec? || r == Skip(NoEntryPoint)
    ensures e == Rust ==> r == Exec(Cmd("cargo", ["run"]))
    ensures e == Go ==> r == Exec(Cmd("go", ["run", "."]))
  {
    match e
    case Node =>
      if pkg.Unreadable? then Abort
      else if "dev" in pkg.scripts then Exec(Cmd("npm", ["run", "dev"]))
      else if "start" in pkg.scripts then Exec(Cmd("npm", ["run", "start"]))
      else Skip(NoEntryPoint)
    case Python =>
      var f := FirstPresent(PythonEntryFiles, dir);
      if f.None? then Skip(NoEntryPoint) else Exec(PythonEntry(f.value))
    case Rust => Exec(Cmd("cargo", ["run"]))
    case Go => Exec(Cmd("go", ["run", "."]))
  }

  /** `devCommand`: the custom script if there is one, otherwise the
      primary type's development server. */
  method DevCommand(env: Env) returns (o: Outcome)
    ensures o.config == env.configFile && o.lock == env.lockFile
    ensures |o.cmds| <= 1
    ensures env.configFile.Malformed? ==> o.failed && o.cmds == []
    ensures LoadConfig(env.configFile).Ok? && CustomScript(LoadConfig(env.configFile).value.scripts, "dev", "taiz dev").Some? ==>
      var script := CustomScript(LoadConfig(env.configFile).value.scripts, "dev", "taiz dev").value;
      o.cmds == [SplitCommand(script)] && (o.failed <==> env.host.exitOf(o.cmds[0]) != Exited(0))
    ensures LoadConfig(env.configFile).Ok? && CustomScript(LoadConfig(env.configFile).value.scripts, "dev", "taiz dev").None? ==>
      (Detect(env.dir) == [] ==> o.failed && o.cmds == []) &&
      (Detect(env.dir) != [] && !ValidateTools(Id(Detect(env.dir)[0].eco), env.host) ==> o.failed && o.cmds == []) &&
      (Detect(env.dir) != [] && ValidateTools(Id(Detect(env.dir)[0].eco), env.host) ==>
         o == RunPlan(env, DevTarget(Detect(env.dir)[0].eco, env.packageJson, env.dir), []))
  {
    var loaded := LoadConfig(env.configFile);
    if loaded.Err? {
      return Unchanged(env, [], true, []);
    }
    var config := loaded.value;
    var custom := CustomScript(config.scripts, "dev", "taiz dev");
    if custom.Some? {
      var cmd := SplitCommand(custom.value);
      var ran := ExecuteCommand(env.host, cmd);
      return Unchanged(env, [cmd], ran.Err?, []);
    }
    var detectedTypes := DetectProjectTypes(env.dir);
    if |detectedTypes| == 0 {
      return Unchanged(env, [], true, [NoProjectTypes]);
    }
    var primaryType := detectedTypes[0];
    if !ValidateTools(Id(primaryType.eco), env.host) {
      return Unchanged(env, [], true, []);
    }
    var plan := DevPlan(primaryType.eco, env.packageJson, env.dir);
    o := RunPlan(env, plan, []);
  }

  /** The `switch` of lines 52-116, the Python branch's search as a loop. */
  method DevPlan(e: Ecosystem, pkg: PackageJson, dir: set<string>) returns (plan: Plan)
    ensures plan == DevTarget(e, pkg, dir)
  {
    match e {
      case Node =>
        if pkg.Unreadable? {
          return Abort;
        }
        if "dev" in pkg.scripts {
          plan := Exec(Cmd("npm", ["run", "dev"]));
        } else if "start" in pkg.scripts {
          plan := Exec(Cmd("npm", ["run", "start"]));
        } else {
          plan := Skip(NoEntryPoint);
        }
      case Python =>
        var pythonFile := FindFirstPresent(PythonEntryFiles, dir);
        if pythonFile.None? {
          return Skip(NoEntryPoint);
        }
        var args := [pythonFile.value];
        if pythonFile.value == "manage.py" {
          args := args + ["runserver"];
        }
        plan := Exec(Cmd("python", args));
      case Rust =>
        plan := Exec(Cmd("cargo", ["run"]));
      case Go =>
        plan := Exec(Cmd("go", ["run", "."]));
    }
  }

  /** A Django project whose only entry file is `manage.py` starts with
      `python manage.py runserver`. */
  lemma DjangoRunserver(dir: set<string>, pkg: PackageJson)
    requires "manage.py" in dir
    requires "app.py" !in dir && "main.py" !in dir && "server.py" !in dir
    ensures DevTarget(Python, pkg, dir) == Exec(Cmd("python", ["manage.py", "runserver"]))
  {
    var f := FirstPresent(PythonEntryFiles, dir);
    assert PythonEntryFiles[3] in dir;
    assert f == Some("manage.py") by {
      var i :| 0 <= i < |PythonEntryFiles| && PythonEntryFiles[i] == f.value && f.value in dir &&
               forall j :: 0 <= j < i ==> PythonEntryFiles[j] !in dir;
    }
  }
}
