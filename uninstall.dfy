/** `taiz uninstall <module>` (src/commands/uninstall.js). */
module UninstallCmd {
  import opened Wrappers
  import opened Installer
  import opened ConfigStore
  import opened Dispatch
  import opened Detector

  /** `hasDep`, lines 46-47: a truthy entry under the type in either
      section of the manifest. */
  predicate Listed(c: Manifest, projectType: string, moduleName: string) {
    Truthy(Entry(c.deps, Regular, projectType, moduleName)) || Truthy(Entry(c.deps, Dev, projectType, moduleName))
  }

  /** `uninstallCommand`. */
  function UninstallCommand(moduleName: string, env: Env): (o: Outcome)
    ensures env.configFile.Malformed? ==> o.failed && o.cmds == []
    // a failure leaves both files as they were
    ensures o.failed ==> o.config == env.configFile && o.lock == env.lockFile
    ensures LoadConfig(env.configFile).Ok? && LoadConfig(env.configFile).value.name == "" ==>
      o == Unchanged(env, [], false, [NoManifest])
    ensures LoadConfig(env.configFile).Ok? && LoadConfig(env.configFile).value.name != "" ==>
      var c := LoadConfig(env.configFile).value;
      (Detect(env.dir) == [] ==> o.failed && o.cmds == []) &&
      (Detect(env.dir) != [] && !ValidateTools(Id(Detect(env.dir)[0].eco), env.host) ==> o.failed && o.cmds == []) &&
      (Detect(env.dir) != [] && ValidateTools(Id(Detect(env.dir)[0].eco), env.host) ==>
         var t := Id(Detect(env.dir)[0].eco);
         var step := UninstallPackage(moduleName, t, false, env.host);
         o.cmds == step.cmds &&
         (NotListed in o.notes <==> !Listed(c, t, moduleName)) &&
         (o.failed <==> step.result.Err? || env.lockFile.Malformed?) &&
         (!o.failed ==> o.config == Doc(RemovedManifest(c, moduleName, t)) &&
                        o.lock == Doc(RemovedLock(LoadLockfile(env.lockFile).value, moduleName, t))))
  {
    match LoadConfig(env.configFile)
    case Err(_) => Unchanged(env, [], true, [])
    case Ok(c) =>
      if c.name == "" then Unchanged(env, [], false, [NoManifest])
      else
        var detectedTypes := Detect(env.dir);
        if detectedTypes == [] then Unchanged(env, [], true, [NoProjectTypes])
        else
          var t := Id(detectedTypes[0].eco);
          if !ValidateTools(t, env.host) then Unchanged(env, [], true, [])
          else
            var warning := if Listed(c, t, moduleName) then [] else [NotListed];
            var step := UninstallPackage(moduleName, t, false, env.host);
            if step.result.Err? then Unchanged(env, step.cmds, true, warning)
            else
              match LoadLockfile(env.lockFile)
              case Err(_) => Unchanged(env, step.cmds, true, warning)
              case Ok(l) =>
                var polyglot := if |detectedTypes| > 1 then [Polyglot] else [];
                Outcome(step.cmds, false, Doc(RemovedManifest(c, moduleName, t)), Doc(RemovedLock(l, moduleName, t)),
                        warning + [Uninstalled] + polyglot)
  }

  /** After a successful uninstall the package is gone from both sections
      of both files under the primary type, listed or not. */
  lemma UninstallClearsEntries(moduleName: string, env: Env)
    requires LoadConfig(env.configFile).Ok? && LoadConfig(env.configFile).value.name != ""
    requires Detect(env.dir) != []
    requires !UninstallCommand(moduleName, env).failed
    ensures var o := UninstallCommand(moduleName, env);
      var t := Id(Detect(env.dir)[0].eco);
      o.config.Doc? && o.lock.Doc? &&
      (forall k :: Entry(o.config.doc.deps, k, t, moduleName).None?) &&
      (forall k :: Entry(o.lock.doc.deps, k, t, moduleName).None?)
  {
  }

  /** For go no command runs, yet the files are still pruned. */
  lemma GoUninstallOnlyPrunes(moduleName: string, env: Env)
    requires LoadConfig(env.configFile).Ok? && LoadConfig(env.configFile).value.name != ""
    requires Detect(env.dir) != [] && Detect(env.dir)[0].eco == Go
    requires env.host.onPath("go")
    requires !env.lockFile.Malformed?
    ensures var o := UninstallCommand(moduleName, env);
      o.cmds == [] && !o.failed &&
      o.config == Doc(RemovedManifest(LoadConfig(env.configFile).value, moduleName, "go"))
  {
  }
}
