/** `taiz run <script>` (src/commands/run.js). */
module RunCmd {
  import opened Dispatch
  import opened Wrappers
  import opened Strings
  import opened Objects
  import opened Installer
  import opened ConfigStore

  /** The script a name selects: present in `scripts` with a truthy value. */
  function FindScript(scripts: Option<Obj<string>>, scriptName: string): (r: Option<string>)
    ensures r.Some? <==> scripts.Some? && Truthy(Get(scripts.value, scriptName))
    ensures r.Some? ==> Get(scripts.value, scriptName) == Some(r.value) && r.value != ""
  {
    if scripts.Some? && Truthy(Get(scripts.value, scriptName)) then Get(scripts.value, scriptName) else None
  }

  /** The names listed when the script is missing; empty means the
      "No scripts defined" message. */
  function AvailableScripts(scripts: Option<Obj<string>>): (names: seq<string>)
    ensures scripts.None? ==> names == []
    ensures scripts.Some? ==> forall n :: n in names <==> Get(scripts.value, n).Some?
  {
    if scripts.Some? then scripts.value.keys else []
  }

  /** `runCommand`. */
  function RunCommand(scriptName: string, env: Env): (o: Outcome)
    ensures o.config == env.configFile && o.lock == env.lockFile
    ensures |o.cmds| <= 1
    ensures env.configFile.Malformed? ==> o.failed && o.cmds == []
    ensures LoadConfig(env.configFile).Ok? ==>
      var scripts := LoadConfig(env.configFile).value.scripts;
      (FindScript(scripts, scriptName).None? ==>
         o.failed && o.cmds == [] && o.notes == [ScriptNotFound(AvailableScripts(scripts))]) &&
      (FindScript(scripts, scriptName).Some? ==>
         o.cmds == [SplitCommand(FindScript(scripts, scriptName).value)] &&
         Join([o.cmds[0].program] + o.cmds[0].args, ' ') == FindScript(scripts, scriptName).value &&
         (o.failed <==> env.host.exitOf(o.cmds[0]) != Exited(0)) &&
         (ScriptCompleted in o.notes <==> !o.failed))
  {
    match LoadConfig(env.configFile)
    case Err(_) => Unchanged(env, [], true, [])
    case Ok(c) =>
      match FindScript(c.scripts, scriptName)
      case None => Unchanged(env, [], true, [ScriptNotFound(AvailableScripts(c.scripts))])
      case Some(script) => RunPlan(env, Exec(SplitCommand(script)), [ScriptCompleted])
  }

  /** The script runs as exactly the words its spaces separate. */
  lemma RunSplitsOnSpaces(scriptName: string, env: Env)
    requires LoadConfig(env.configFile).Ok?
    requires FindScript(LoadConfig(env.configFile).value.scripts, scriptName).Some?
    ensures var script := FindScript(LoadConfig(env.configFile).value.scripts, scriptName).value;
      RunCommand(scriptName, env).cmds == [Cmd(Split(script, ' ')[0], Split(script, ' ')[1..])]
  {
  }
}
