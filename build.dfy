/** `taiz build` (src/commands/build.js). */
module BuildCmd {
  import opened Wrappers
  import opened Installer
  import opened ConfigStore
  import opened Dispatch
  import opened Detector

  /** The `switch` on the primary type, lines 51-90. The program of a
      command that is run is always the tool checked for that type. */
  function BuildTarget(e: Ecosystem, pkg: PackageJson): (r: Plan)
    ensures r.Exec? ==> Some(r.cmd.program) == ToolFor(Id(e))
    ensures e == Node ==>
      r == (if pkg.Unreadable? then Abort
            else if "build" in pkg.scripts then Exec(Cmd("npm", ["run", "build"]))
            else Skip(NoBuildScript))
    ensures e == Python ==> r == Skip(BuildPlaceholder)
    ensures e == Rust ==> r == Exec(Cmd("cargo", ["build", "--release"]))
    ensures e == Go ==> r == Exec(Cmd("go", ["build"]))
  {
    match e
    case Node =>
      if pkg.Unreadable? then Abort
      else if "build" in pkg.scripts then Exec(Cmd("npm", ["run", "build"]))
      else Skip(NoBuildScript)
    case Python => Skip(BuildPlaceholder)
    case Rust => Exec(Cmd("cargo", ["build", "--release"]))
    case Go => Exec(Cmd("go", ["build"]))
  }

  /** `buildCommand`. */
  function BuildCommand(env: Env): (o: Outcome)
    ensures o.config == env.configFile && o.lock == env.lockFile
    ensures |o.cmds| <= 1
    ensures env.configFile.Malformed? ==> o.failed && o.cmds == []
    // a custom script replaces the handler, and reports no success of its own
    ensures LoadConfig(env.configFile).Ok? && CustomScript(LoadConfig(env.configFile).value.scripts, "build", "taiz build").Some? ==>
      var script := CustomScript(LoadConfig(env.configFile).value.scripts, "build", "taiz build").value;
      o.cmds == [SplitCommand(script)] && (o.failed <==> env.host.exitOf(o.cmds[0]) != Exited(0)) && o.notes == []
    ensures LoadConfig(env.configFile).Ok? && CustomScript(LoadConfig(env.configFile).value.scripts, "build", "taiz build").None? ==>
      (Detect(env.dir) == [] ==> o.failed && o.cmds == []) &&
      (Detect(env.dir) != [] && !ValidateTools(Id(Detect(env.dir)[0].eco), env.host) ==> o.failed && o.cmds == []) &&
      (Detect(env.dir) != [] && ValidateTools(Id(Detect(env.dir)[0].eco), env.host) ==>
         o == RunPlan(env, BuildTarget(Detect(env.dir)[0].eco, env.packageJson), [BuildCompleted]))
    // success is reported only after the command exits with 0
    ensures BuildCompleted in o.notes ==> |o.cmds| == 1 && env.host.exitOf(o.cmds[0]) == Exited(0) && !o.failed
  {
    match LoadConfig(env.configFile)
    case Err(_) => Unchanged(env, [], true, [])
    case Ok(c) =>
      match CustomScript(c.scripts, "build", "taiz build")
      case Some(script) => RunPlan(env, Exec(SplitCommand(script)), [])
      case None =>
        match PrimaryProjectType(env.dir)
        case None => Unchanged(env, [], true, [NoProjectTypes])
        case Some(primary) =>
          if !ValidateTools(Id(primary.eco), env.host) then Unchanged(env, [], true, [])
          else RunPlan(env, BuildTarget(primary.eco, env.packageJson), [BuildCompleted])
  }

  /** A Python project never builds: with pip on the PATH the handler
      returns normally without running anything. */
  lemma PythonBuildIsPlaceholder(env: Env)
    requires LoadConfig(env.configFile).Ok?
    requires CustomScript(LoadConfig(env.configFile).value.scripts, "build", "taiz build").None?
    requires PrimaryProjectType(env.dir).Some? && PrimaryProjectType(env.dir).value.eco == Python
    requires env.host.onPath("pip")
    ensures BuildCommand(env) == Unchanged(env, [], false, [BuildPlaceholder])
  {
  }

  /** Only the primary ecosystem is built: whatever else is detected, the
      command run, if any, is the primary's. */
  lemma BuildActsOnPrimaryOnly(env: Env)
    requires LoadConfig(env.configFile).Ok?
    requires CustomScript(LoadConfig(env.configFile).value.scripts, "build", "taiz build").None?
    requires BuildCommand(env).cmds != []
    ensures Detect(env.dir) != []
    ensures BuildCommand(env).cmds == [BuildTarget(Detect(env.dir)[0].eco, env.packageJson).cmd]
    ensures forall i :: 1 <= i < |Detect(env.dir)| ==>
      Some(BuildCommand(env).cmds[0].program) != ToolFor(Id(Detect(env.dir)[i].eco))
  {
    DetectOrdered(env.dir);
    var d := Detect(env.dir);
    forall i | 1 <= i < |d|
      ensures Some(BuildCommand(env).cmds[0].program) != ToolFor(Id(d[i].eco))
    {
      assert d[0].eco != d[i].eco;
    }
  }
}
