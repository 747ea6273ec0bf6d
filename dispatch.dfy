/** What the command handlers (the files under src/commands) share: the environment a
    command runs in, the outcome it produces, the custom-script override in
    the manifest and the way a script string becomes a command line. */
module Dispatch {
  import opened Wrappers
  import opened Strings
  import opened Objects
  import opened Installer
  import opened ConfigStore
  import Detector

  /** `package.json` as `fs.readJson` sees it: text that is not an object
      with a readable `scripts` field makes the read (or the field access)
      throw; otherwise the names of the scripts whose value is truthy. */
  datatype PackageJson = Unreadable | PackageJson(scripts: set<string>)

  /** Everything a command reads: the two files, the names present in the
      project root (markers and Python entry files alike), the node manifest
      and the process host. */
  datatype Env = Env(
    configFile: Stored<Manifest>,
    lockFile: Stored<Lockfile>,
    dir: set<string>,
    packageJson: PackageJson,
    host: Host)

  /** The informational messages a command ends with, where they matter. */
  datatype Notice =
    | GlobalBatchRefused                 // `install --global` without a module
    | NoManifest                         // `config.name` is empty
    | NoDependencies                     // neither section exists
    | InstalledCount(total: nat)         // batch install summary
    | NoProjectTypes                     // local install in an undetected project
    | Installed(version: string)
    | OtherTypes(types: seq<string>)     // polyglot note: the types not acted on
    | NotListed                          // uninstall of an unlisted package
    | Uninstalled
    | Polyglot
    | NoEntryPoint                       // dev: nothing to start
    | NoBuildScript                      // build: node without a build script
    | BuildPlaceholder                   // build: python
    | BuildCompleted
    | ScriptNotFound(available: seq<string>)
    | ScriptCompleted

  /** The commands issued, whether the process exits with code 1, the two
      files afterwards and the notices. */
  datatype Outcome = Outcome(
    cmds: seq<Cmd>,
    failed: bool,
    config: Stored<Manifest>,
    lock: Stored<Lockfile>,
    notes: seq<Notice>)

  /** An outcome that leaves both files as they were. */
  function Unchanged(env: Env, cmds: seq<Cmd>, failed: bool, notes: seq<Notice>): (o: Outcome)
    ensures o.config == env.configFile && o.lock == env.lockFile
    ensures o.cmds == cmds && o.failed == failed && o.notes == notes
  {
    Outcome(cmds, failed, env.configFile, env.lockFile, notes)
  }

  /** JavaScript truthiness of an optional string. */
  predicate Truthy(v: Option<string>) {
    v.Some? && v.value != ""
  }

  /** `const [command, ...args] = script.split(' ')`: the first part is the
      program, the rest, empty parts from repeated spaces included, are the
      arguments. */
  function SplitCommand(script: string): (c: Cmd)
    ensures Join([c.program] + c.args, ' ') == script
    ensures ' ' !in c.program
    ensures forall i :: 0 <= i < |c.args| ==> ' ' !in c.args[i]
  {
    var parts := Split(script, ' ');
    assert [parts[0]] + parts[1..] == parts;
    Cmd(parts[0], parts[1..])
  }

  /** A command line whose words contain no space is what the script made
      of those words splits into. */
  lemma SplitCommandJoin(c: Cmd)
    requires ' ' !in c.program
    requires forall i :: 0 <= i < |c.args| ==> ' ' !in c.args[i]
    ensures SplitCommand(Join([c.program] + c.args, ' ')) == c
  {
    var words := [c.program] + c.args;
    SplitJoin(words, ' ');
    assert words[1..] == c.args;
  }

  /** `config.scripts && config.scripts[key] && config.scripts[key] !== builtin`:
      the script that replaces the built-in handler, if any. */
  function CustomScript(scripts: Option<Obj<string>>, key: string, builtin: string): (r: Option<string>)
    ensures r.Some? <==> scripts.Some? && Truthy(Get(scripts.value, key)) && Get(scripts.value, key) != Some(builtin)
    ensures r.Some? ==> Get(scripts.value, key) == Some(r.value) && r.value != ""
  {
    match scripts
    case None => None
    case Some(s) =>
      match Get(s, key)
      case None => None
      case Some(v) => if v != "" && v != builtin then Some(v) else None
  }

  /** The default manifest keeps the built-in dev and build handlers. */
  lemma DefaultHasNoCustomScripts()
    ensures CustomScript(DefaultConfig().scripts, "dev", "taiz dev").None?
    ensures CustomScript(DefaultConfig().scripts, "build", "taiz build").None?
  {
    var s := DefaultConfig().scripts.value;
    assert Get(s, "dev") == Some("taiz dev");
    assert Get(s, "build") == Some("taiz build");
  }

  /** What a handler's per-ecosystem `switch` settles on: exit with 1 (an
      exception), return early with a notice, or run one command. */
  datatype Plan = Abort | Skip(note: Notice) | Exec(cmd: Cmd)

  /** A handler that runs one command: exit code 1 when the command fails. */
  function RunPlan(env: Env, plan: Plan, success: seq<Notice>): (o: Outcome)
    ensures o.config == env.configFile && o.lock == env.lockFile
    ensures plan.Abort? ==> o.cmds == [] && o.failed
    ensures plan.Skip? ==> o.cmds == [] && !o.failed && o.notes == [plan.note]
    ensures plan.Exec? ==>
      o.cmds == [plan.cmd] &&
      (o.failed <==> env.host.exitOf(plan.cmd) != Exited(0)) &&
      o.notes == if o.failed then [] else success
  {
    match plan
    case Abort => Unchanged(env, [], true, [])
    case Skip(n) => Unchanged(env, [], false, [n])
    case Exec(cmd) =>
      if ExecuteCommand(env.host, cmd).Ok? then Unchanged(env, [cmd], false, success)
      else Unchanged(env, [cmd], true, [])
  }
}
