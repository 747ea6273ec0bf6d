/** `taiz install [module] [--global]` (src/commands/install.js): the
    batch install of every listed package, the global install and the
    local install that records the package. */
module InstallCmd {
  import opened Wrappers
  import opened Objects
  import opened Installer
  import opened ConfigStore
  import opened Dispatch
  import opened Detector

  /** The commands issued so far and the `totalInstalled` counter. */
  datatype Tally = Tally(cmds: seq<Cmd>, installed: nat)
  {
    function Then(next: Tally): Tally {
      Tally(cmds + next.cmds, installed + next.installed)
    }
  }

  const NoTally: Tally := Tally([], 0)

  /** One `installPackage` call inside a `try`: a failure is logged and
      does not count. */
  function Attempt(s: Step<string>): Tally {
    Tally(s.cmds, if s.result.Ok? then 1 else 0)
  }

  /** Lines 36-45 (and 59-68): the packages of one ecosystem, in order. The
      recorded version range is not passed on. */
  function ModulesTally(mods: seq<string>, projectType: string, dev: bool, host: Host): Tally
    decreases |mods|
  {
    if mods == [] then NoTally
    else
      ModulesTally(mods[..|mods| - 1], projectType, dev, host)
        .Then(Attempt(InstallPackage(mods[|mods| - 1], projectType, false, dev, host)))
  }

  /** Lines 28-46 (and 51-69): the ecosystems of one section in key order,
      an ecosystem whose tool is missing skipped entirely. */
  function SectionTally(b: map<string, Obj<string>>, types: seq<string>, dev: bool, host: Host): Tally
    decreases |types|
  {
    if types == [] then NoTally
    else
      var t := types[|types| - 1];
      SectionTally(b, types[..|types| - 1], dev, host)
        .Then(if t in b && ValidateTools(t, host) then ModulesTally(b[t].keys, t, dev, host) else NoTally)
  }

  /** A section that may be absent. */
  function OptSectionTally(b: Option<Bucket<string>>, dev: bool, host: Host): Tally {
    if b.None? then NoTally else SectionTally(b.value.vals, b.value.keys, dev, host)
  }

  /** `installAllDependencies` past its early return: the regular section,
      then the dev section with `dev: true`. */
  function BatchTally(c: Manifest, host: Host): Tally {
    OptSectionTally(c.deps.dependencies, false, host).Then(OptSectionTally(c.deps.devDependencies, true, host))
  }

  /** The inner loop, lines 36-45: every package of one ecosystem. */
  method InstallModules(deps: Obj<string>, projectType: string, dev: bool, host: Host)
    returns (cmds: seq<Cmd>, installed: nat)
    ensures Tally(cmds, installed) == ModulesTally(deps.keys, projectType, dev, host)
  {
    cmds := [];
    installed := 0;
    for j := 0 to |deps.keys|
      invariant Tally(cmds, installed) == ModulesTally(deps.keys[..j], projectType, dev, host)
    {
      var moduleName := deps.keys[j];
      assert deps.keys[..j + 1][..j] == deps.keys[..j];
      var step := InstallPackage(moduleName, projectType, false, dev, host);
      assert ModulesTally(deps.keys[..j + 1], projectType, dev, host)
          == ModulesTally(deps.keys[..j], projectType, dev, host).Then(Attempt(step));
      cmds := cmds + step.cmds;
      if step.result.Ok? {
        installed := installed + 1;
      }
    }
    assert deps.keys[..|deps.keys|] == deps.keys;
  }

  /** The outer loop, lines 28-46, over the ecosystems of one section. */
  method InstallSection(vals: map<string, Obj<string>>, types: seq<string>, dev: bool, host: Host)
    returns (cmds: seq<Cmd>, totalInstalled: nat)
    requires forall t :: t in types ==> t in vals
    ensures Tally(cmds, totalInstalled) == SectionTally(vals, types, dev, host)
  {
    cmds := [];
    totalInstalled := 0;
    var i := 0;
    while i < |types|
      invariant 0 <= i <= |types|
      invariant Tally(cmds, totalInstalled) == SectionTally(vals, types[..i], dev, host)
    {
      var projectType := types[i];
      assert types[..i + 1][..i] == types[..i];
      ghost var before := SectionTally(vals, types[..i], dev, host);
      var moduleCmds, installed := InstallEcosystem(vals, projectType, dev, host);
      assert SectionTally(vals, types[..i + 1], dev, host) == before.Then(Tally(moduleCmds, installed));
      cmds := cmds + moduleCmds;
      totalInstalled := totalInstalled + installed;
      i := i + 1;
    }
    assert types[..i] == types;
  }

  /** One pass of the outer loop, lines 29-45: an ecosystem whose tool
      is missing is skipped, otherwise each of its packages installed. */
  method InstallEcosystem(vals: map<string, Obj<string>>, projectType: string, dev: bool, host: Host)
    returns (cmds: seq<Cmd>, installed: nat)
    requires projectType in vals
    ensures Tally(cmds, installed) ==
      if ValidateTools(projectType, host) then ModulesTally(vals[projectType].keys, projectType, dev, host) else NoTally
  {
    if !ValidateTools(projectType, host) {
      return [], 0;
    }
    cmds, installed := InstallModules(vals[projectType], projectType, dev, host);
  }

  /** `installAllDependencies`, lines 15-73, on the loaded manifest. */
  method InstallAllDependencies(c: Manifest, host: Host) returns (cmds: seq<Cmd>, notes: seq<Notice>)
    ensures c.deps.dependencies.None? && c.deps.devDependencies.None? ==> cmds == [] && notes == [NoDependencies]
    ensures c.deps.dependencies.Some? || c.deps.devDependencies.Some? ==>
      cmds == BatchTally(c, host).cmds && notes == [InstalledCount(BatchTally(c, host).installed)]
  {
    if c.deps.dependencies.None? && c.deps.devDependencies.None? {
      return [], [NoDependencies];
    }
    ghost var regular := OptSectionTally(c.deps.dependencies, false, host);
    ghost var dev := OptSectionTally(c.deps.devDependencies, true, host);
    var totalInstalled := 0;
    cmds := [];
    if c.deps.dependencies.Some? {
      cmds, totalInstalled := InstallSection(c.deps.dependencies.value.vals, c.deps.dependencies.value.keys, false, host);
    }
    assert Tally(cmds, totalInstalled) == regular;
    ghost var afterRegular := Tally(cmds, totalInstalled);
    if c.deps.devDependencies.Some? {
      var devCmds, devInstalled := InstallSection(c.deps.devDependencies.value.vals, c.deps.devDependencies.value.keys, true, host);
      assert Tally(devCmds, devInstalled) == dev;
      cmds := cmds + devCmds;
      totalInstalled := totalInstalled + devInstalled;
    } else {
      assert cmds + [] == cmds;
    }
    assert Tally(cmds, totalInstalled) == afterRegular.Then(dev);
    notes := [InstalledCount(totalInstalled)];
  }

  /** The ecosystems a global install tries, in order. */
  const GlobalEcosystems: seq<string> := ["node", "python"]

  /** Lines 132-143 over the first ecosystems. */
  function GlobalTallyIn(moduleName: string, es: seq<string>, host: Host): Tally
    decreases |es|
  {
    if es == [] then NoTally
    else
      var e := es[|es| - 1];
      GlobalTallyIn(moduleName, es[..|es| - 1], host).Then(GlobalAttempt(moduleName, e, host))
  }

  function GlobalTally(moduleName: string, host: Host): Tally {
    GlobalTallyIn(moduleName, GlobalEcosystems, host)
  }

  /** The `Detected` entries other than the primary, as type ids (line 181). */
  function OthersThan(ds: seq<Detected>, primary: string): seq<string> {
    if ds == [] then []
    else (if Id(ds[0].eco) != primary then [Id(ds[0].eco)] else []) + OthersThan(ds[1..], primary)
  }

  /** The notices of a successful local install. */
  function LocalNotes(version: string, detected: seq<Detected>): seq<Notice>
    requires detected != []
  {
    [Installed(version)] + if |detected| > 1 then [OtherTypes(OthersThan(detected, Id(detected[0].eco)))] else []
  }

  /** Lines 126-151: try every listed ecosystem whose tool is present, not
      stopping at the first success; exit with 1 only if none succeeded.
      The manifest is not involved. */
  method InstallGlobal(moduleName: string, env: Env) returns (o: Outcome)
    ensures o.config == env.configFile && o.lock == env.lockFile && o.notes == []
    ensures o.cmds == GlobalTally(moduleName, env.host).cmds
    ensures o.failed <==> GlobalTally(moduleName, env.host).installed == 0
  {
    var ecosystems := GlobalEcosystems;
    var installed := false;
    var cmds: seq<Cmd> := [];
    for i := 0 to |ecosystems|
      invariant cmds == GlobalTallyIn(moduleName, ecosystems[..i], env.host).cmds
      invariant installed <==> GlobalTallyIn(moduleName, ecosystems[..i], env.host).installed > 0
    {
      var ecosystem := ecosystems[i];
      assert ecosystems[..i + 1][..i] == ecosystems[..i];
      if ValidateTools(ecosystem, env.host) {
        var step := InstallPackage(moduleName, ecosystem, true, false, env.host);
        cmds := cmds + step.cmds;
        if step.result.Ok? {
          installed := true;
        }
      }
    }
    assert ecosystems[..|ecosystems|] == ecosystems;
    o := Unchanged(env, cmds, !installed, []);
  }

  /** Lines 117-183: install into the primary type and record the package,
      given the loaded manifest. */
  method InstallLocal(moduleName: string, config: Manifest, env: Env) returns (o: Outcome)
    ensures o.failed ==> o.config == env.configFile && o.lock == env.lockFile
    ensures Detect(env.dir) == [] ==> o == Unchanged(env, [], false, [NoProjectTypes])
    ensures Detect(env.dir) != [] && !ValidateTools(Id(Detect(env.dir)[0].eco), env.host) ==> o.failed && o.cmds == []
    ensures Detect(env.dir) != [] && ValidateTools(Id(Detect(env.dir)[0].eco), env.host) ==>
      var t := Id(Detect(env.dir)[0].eco);
      var step := InstallPackage(moduleName, t, false, false, env.host);
      o.cmds == step.cmds &&
      (o.failed <==> step.result.Err? || env.lockFile.Malformed?) &&
      (!o.failed ==>
         o.config == Doc(AddedManifest(config, moduleName, step.result.value, t, false)) &&
         o.lock == Doc(AddedLock(LoadLockfile(env.lockFile).value, moduleName, step.result.value, t, false)) &&
         o.notes == LocalNotes(step.result.value, Detect(env.dir)))
  {
    var detectedTypes := DetectProjectTypes(env.dir);
    if |detectedTypes| == 0 {
      return Unchanged(env, [], false, [NoProjectTypes]);
    }
    var primaryType := detectedTypes[0];
    var t := Id(primaryType.eco);
    if !ValidateTools(t, env.host) {
      return Unchanged(env, [], true, []);
    }
    var step := InstallPackage(moduleName, t, false, false, env.host);
    if step.result.Err? {
      return Unchanged(env, step.cmds, true, []);
    }
    var version := step.result.value;
    // addDependency loads both files before writing either
    var lock := LoadLockfile(env.lockFile);
    if lock.Err? {
      return Unchanged(env, step.cmds, true, []);
    }
    var store := new ProjectStore(config, lock.value);
    store.AddDependency(moduleName, version, t, false);
    o := Outcome(step.cmds, false, Doc(store.config), Doc(store.lock), LocalNotes(version, detectedTypes));
  }

  /** `installCommand`. A module name of "" is an absent one. */
  method InstallCommand(moduleName: string, global: bool, env: Env) returns (o: Outcome)
    ensures o.failed ==> o.config == env.configFile && o.lock == env.lockFile
    ensures moduleName == "" || global ==> o.config == env.configFile && o.lock == env.lockFile
    ensures moduleName == "" && global ==> o == Unchanged(env, [], false, [GlobalBatchRefused])
    ensures !global && env.configFile.Malformed? ==> o.failed && o.cmds == []
    ensures !global && LoadConfig(env.configFile).Ok? && LoadConfig(env.configFile).value.name == "" ==>
      o == Unchanged(env, [], false, [NoManifest])
    ensures moduleName == "" && !global && LoadConfig(env.configFile).Ok? && LoadConfig(env.configFile).value.name != "" ==>
      var c := LoadConfig(env.configFile).value;
      !o.failed &&
      (c.deps.dependencies.None? && c.deps.devDependencies.None? ==> o.cmds == [] && o.notes == [NoDependencies]) &&
      (c.deps.dependencies.Some? || c.deps.devDependencies.Some? ==>
         o.cmds == BatchTally(c, env.host).cmds && o.notes == [InstalledCount(BatchTally(c, env.host).installed)])
    ensures moduleName != "" && global ==>
      o.cmds == GlobalTally(moduleName, env.host).cmds && (o.failed <==> GlobalTally(moduleName, env.host).installed == 0)
    ensures moduleName != "" && !global && LoadConfig(env.configFile).Ok? && LoadConfig(env.configFile).value.name != "" ==>
      var c := LoadConfig(env.configFile).value;
      Detect(env.dir) != [] && ValidateTools(Id(Detect(env.dir)[0].eco), env.host) ==>
         var t := Id(Detect(env.dir)[0].eco);
         var step := InstallPackage(moduleName, t, false, false, env.host);
         o.cmds == step.cmds &&
         (o.failed <==> step.result.Err? || env.lockFile.Malformed?) &&
         (!o.failed ==> o.config == Doc(AddedManifest(c, moduleName, step.result.value, t, false)))
  {
    if moduleName == "" && global {
      return Unchanged(env, [], false, [GlobalBatchRefused]);
    }
    if global {
      o := InstallGlobal(moduleName, env);
      return;
    }
    var loaded := LoadConfig(env.configFile);
    if loaded.Err? {
      return Unchanged(env, [], true, []);
    }
    if loaded.value.name == "" {
      return Unchanged(env, [], false, [NoManifest]);
    }
    if moduleName == "" {
      var cmds, notes := InstallAllDependencies(loaded.value, env.host);
      return Unchanged(env, cmds, false, notes);
    }
    o := InstallLocal(moduleName, loaded.value, env);
  }

  /** Every command runs a program that is on the PATH. */
  predicate AllOnPath(cmds: seq<Cmd>, host: Host) {
    forall i :: 0 <= i < |cmds| ==> host.onPath(cmds[i].program)
  }

  lemma {:induction false} ModulesOnPath(mods: seq<string>, projectType: string, dev: bool, host: Host)
    requires ValidateTools(projectType, host)
    ensures AllOnPath(ModulesTally(mods, projectType, dev, host).cmds, host)
    decreases |mods|
  {
    if mods != [] {
      ModulesOnPath(mods[..|mods| - 1], projectType, dev, host);
    }
  }

  lemma {:induction false} SectionOnPath(b: map<string, Obj<string>>, types: seq<string>, dev: bool, host: Host)
    ensures AllOnPath(SectionTally(b, types, dev, host).cmds, host)
    decreases |types|
  {
    if types != [] {
      var t := types[|types| - 1];
      SectionOnPath(b, types[..|types| - 1], dev, host);
      if t in b && ValidateTools(t, host) {
        ModulesOnPath(b[t].keys, t, dev, host);
      }
    }
  }

  /** The batch install never runs a package manager that is not on the
      PATH: an ecosystem whose tool is missing is skipped entirely, and
      every command of an attempt (the install and the version lookup) runs
      that ecosystem's tool. */
  lemma BatchRunsOnlyAvailableTools(c: Manifest, host: Host)
    ensures AllOnPath(BatchTally(c, host).cmds, host)
  {
    if c.deps.dependencies.Some? {
      SectionOnPath(c.deps.dependencies.value.vals, c.deps.dependencies.value.keys, false, host);
    }
    if c.deps.devDependencies.Some? {
      SectionOnPath(c.deps.devDependencies.value.vals, c.deps.devDependencies.value.keys, true, host);
    }
  }

  /** The number of packages listed under ecosystems whose tool is on the
      PATH: the attempts the batch makes. */
  function Eligible(b: map<string, Obj<string>>, types: seq<string>, host: Host): nat
    decreases |types|
  {
    if types == [] then 0
    else
      var t := types[|types| - 1];
      Eligible(b, types[..|types| - 1], host) + if t in b && ValidateTools(t, host) then |b[t].keys| else 0
  }

  /** Every attempt the section makes succeeds. */
  predicate SectionSucceeds(b: map<string, Obj<string>>, dev: bool, host: Host) {
    forall t, m :: t in b && m in b[t].keys && ValidateTools(t, host) ==>
      InstallPackage(m, t, false, dev, host).result.Ok?
  }

  lemma {:induction false} ModulesCount(mods: seq<string>, projectType: string, dev: bool, host: Host)
    ensures ModulesTally(mods, projectType, dev, host).installed <= |mods|
    ensures (forall m :: m in mods ==> InstallPackage(m, projectType, false, dev, host).result.Ok?) ==>
      ModulesTally(mods, projectType, dev, host).installed == |mods|
    ensures (forall m :: m in mods ==> InstallPackage(m, projectType, false, dev, host).result.Err?) ==>
      ModulesTally(mods, projectType, dev, host).installed == 0
    decreases |mods|
  {
    if mods != [] {
      var init := mods[..|mods| - 1];
      ModulesCount(init, projectType, dev, host);
      assert forall m :: m in init ==> m in mods;
      assert mods[|mods| - 1] in mods;
    }
  }

  lemma {:induction false} SectionCount(b: map<string, Obj<string>>, types: seq<string>, dev: bool, host: Host)
    ensures SectionTally(b, types, dev, host).installed <= Eligible(b, types, host)
    ensures SectionSucceeds(b, dev, host) ==> SectionTally(b, types, dev, host).installed == Eligible(b, types, host)
    decreases |types|
  {
    if types != [] {
      var t := types[|types| - 1];
      SectionCount(b, types[..|types| - 1], dev, host);
      if t in b && ValidateTools(t, host) {
        ModulesCount(b[t].keys, t, dev, host);
      }
    }
  }

  /** Whether `installPackage` of a package succeeds. */
  function InstallOk(projectType: string, dev: bool, host: Host): string -> bool {
    m => InstallPackage(m, projectType, false, dev, host).result.Ok?
  }

  /** The listed names that pass `ok`. */
  function Filter(mods: seq<string>, ok: string -> bool): set<string> {
    set m | m in mods && ok(m)
  }

  /** The packages of one ecosystem whose install succeeds. */
  function Succeeded(mods: seq<string>, projectType: string, dev: bool, host: Host): set<string> {
    Filter(mods, InstallOk(projectType, dev, host))
  }

  /** A last name, not listed before it, adds one to the filtered set
      exactly when it passes. */
  lemma FilterLast(mods: seq<string>, ok: string -> bool)
    requires mods != [] && mods[|mods| - 1] !in mods[..|mods| - 1]
    ensures |Filter(mods, ok)| == |Filter(mods[..|mods| - 1], ok)| + if ok(mods[|mods| - 1]) then 1 else 0
  {
    var init, last := mods[..|mods| - 1], mods[|mods| - 1];
    assert mods == init + [last];
    if ok(last) {
      assert Filter(mods, ok) == Filter(init, ok) + {last};
    } else {
      assert Filter(mods, ok) == Filter(init, ok);
    }
  }

  lemma {:induction false} ModulesCountsSuccesses(mods: seq<string>, projectType: string, dev: bool, host: Host)
    requires Distinct(mods)
    ensures ModulesTally(mods, projectType, dev, host).installed == |Succeeded(mods, projectType, dev, host)|
    decreases |mods|
  {
    if mods != [] {
      DistinctInit(mods);
      ModulesCountsSuccesses(mods[..|mods| - 1], projectType, dev, host);
      ModulesTallyLast(mods, projectType, dev, host);
      FilterLast(mods, InstallOk(projectType, dev, host));
    }
  }

  /** The last package adds one to the counter exactly when its install
      succeeds. */
  lemma ModulesTallyLast(mods: seq<string>, projectType: string, dev: bool, host: Host)
    requires mods != []
    ensures ModulesTally(mods, projectType, dev, host).installed ==
      ModulesTally(mods[..|mods| - 1], projectType, dev, host).installed +
      if InstallPackage(mods[|mods| - 1], projectType, false, dev, host).result.Ok? then 1 else 0
  {
  }

  /** The names of each of `types`, tagged with the type. */
  function Pairs(types: seq<string>, per: string -> set<string>): set<(string, string)> {
    set t, m | t in types && m in per(t) :: (t, m)
  }

  lemma {:induction false} TaggedSize(t: string, ms: set<string>)
    ensures |set m | m in ms :: (t, m)| == |ms|
    decreases |ms|
  {
    if ms != {} {
      var m :| m in ms;
      TaggedSize(t, ms - {m});
      assert (set x | x in ms :: (t, x)) == (set x | x in ms - {m} :: (t, x)) + {(t, m)};
    }
  }

  /** A last type, not listed before it, adds its own names. */
  lemma PairsLast(types: seq<string>, per: string -> set<string>)
    requires types != [] && types[|types| - 1] !in types[..|types| - 1]
    ensures |Pairs(types, per)| == |Pairs(types[..|types| - 1], per)| + |per(types[|types| - 1])|
  {
    var init, t := types[..|types| - 1], types[|types| - 1];
    assert types == init + [t];
    var before := Pairs(init, per);
    var added := set m | m in per(t) :: (t, m);
    TaggedSize(t, per(t));
    assert Pairs(types, per) == before + added;
    assert before * added == {} by {
      forall p | p in before ensures p !in added {
        assert p.0 in init;
      }
    }
  }

  /** The successful installs of each ecosystem of a section; none for an
      ecosystem whose tool is missing. */
  function SectionOk(b: map<string, Obj<string>>, dev: bool, host: Host): string -> set<string> {
    t => if t in b && ValidateTools(t, host) then Succeeded(b[t].keys, t, dev, host) else {}
  }

  /** The (ecosystem, package) pairs of a section whose install succeeds:
      the ecosystem's tool is on the PATH and `installPackage` returned. */
  function SectionInstalled(b: map<string, Obj<string>>, types: seq<string>, dev: bool, host: Host): set<(string, string)> {
    Pairs(types, SectionOk(b, dev, host))
  }

  /** A section's count is the number of successful installs in it. */
  lemma {:induction false} SectionCountsSuccesses(b: map<string, Obj<string>>, types: seq<string>, dev: bool, host: Host)
    requires Distinct(types)
    ensures SectionTally(b, types, dev, host).installed == |SectionInstalled(b, types, dev, host)|
    decreases |types|
  {
    if types != [] {
      var t := types[|types| - 1];
      DistinctInit(types);
      SectionCountsSuccesses(b, types[..|types| - 1], dev, host);
      SectionTallyLast(b, types, dev, host);
      PairsLast(types, SectionOk(b, dev, host));
      if t in b && ValidateTools(t, host) {
        ModulesCountsSuccesses(b[t].keys, t, dev, host);
      }
    }
  }

  /** The last ecosystem adds its own counter, or nothing when skipped. */
  lemma SectionTallyLast(b: map<string, Obj<string>>, types: seq<string>, dev: bool, host: Host)
    requires types != []
    ensures var t := types[|types| - 1];
      SectionTally(b, types, dev, host).installed ==
      SectionTally(b, types[..|types| - 1], dev, host).installed +
      if t in b && ValidateTools(t, host) then ModulesTally(b[t].keys, t, dev, host).installed else 0
  {
  }

  /** The successful installs of a section that may be absent. */
  function OptSectionInstalled(b: Option<Bucket<string>>, dev: bool, host: Host): set<(string, string)> {
    if b.None? then {} else SectionInstalled(b.value.vals, b.value.keys, dev, host)
  }

  /** The reported total is the number of successful installs: those of
      the regular section plus those of the dev section, an absent section
      contributing none. */
  lemma BatchTotalCountsSuccesses(c: Manifest, host: Host)
    ensures BatchTally(c, host).installed ==
      |OptSectionInstalled(c.deps.dependencies, false, host)| + |OptSectionInstalled(c.deps.devDependencies, true, host)|
  {
    if c.deps.dependencies.Some? {
      SectionCountsSuccesses(c.deps.dependencies.value.vals, c.deps.dependencies.value.keys, false, host);
    }
    if c.deps.devDependencies.Some? {
      SectionCountsSuccesses(c.deps.devDependencies.value.vals, c.deps.devDependencies.value.keys, true, host);
    }
  }

  /** The packages listed under available ecosystems of a section that may
      be absent. */
  function OptEligible(b: Option<Bucket<string>>, host: Host): nat {
    if b.None? then 0 else Eligible(b.value.vals, b.value.keys, host)
  }

  /** The total is at most one per package listed under an available
      ecosystem, and exactly that when every install succeeds. */
  lemma BatchTotalBounded(c: Manifest, host: Host)
    ensures var n := OptEligible(c.deps.dependencies, host) + OptEligible(c.deps.devDependencies, host);
      BatchTally(c, host).installed <= n &&
      ((c.deps.dependencies.None? || SectionSucceeds(c.deps.dependencies.value.vals, false, host)) &&
       (c.deps.devDependencies.None? || SectionSucceeds(c.deps.devDependencies.value.vals, true, host)) ==>
         BatchTally(c, host).installed == n)
  {
    if c.deps.dependencies.Some? {
      SectionCount(c.deps.dependencies.value.vals, c.deps.dependencies.value.keys, false, host);
    }
    if c.deps.devDependencies.Some? {
      SectionCount(c.deps.devDependencies.value.vals, c.deps.devDependencies.value.keys, true, host);
    }
  }

  /** Empty sections do not return early: nothing runs and 0 is reported. */
  lemma EmptySectionsReportZero(c: Manifest, host: Host)
    requires c.deps.dependencies.Some? && c.deps.dependencies.value.keys == []
    requires c.deps.devDependencies.Some? && c.deps.devDependencies.value.keys == []
    ensures BatchTally(c, host) == NoTally
  {
    var regular, dev := c.deps.dependencies, c.deps.devDependencies;
    EmptySectionTally(regular, false, host);
    EmptySectionTally(dev, true, host);
    assert BatchTally(c, host) == OptSectionTally(regular, false, host).Then(OptSectionTally(dev, true, host));
  }

  /** A present section without ecosystems attempts nothing. */
  lemma EmptySectionTally(b: Option<Bucket<string>>, dev: bool, host: Host)
    requires b.Some? && b.value.keys == []
    ensures OptSectionTally(b, dev, host) == NoTally
  {
  }

  /** How the attempt in one ecosystem of a global install counts. */
  function GlobalAttempt(moduleName: string, e: string, host: Host): Tally {
    if ValidateTools(e, host) then Attempt(InstallPackage(moduleName, e, true, false, host)) else NoTally
  }

  lemma GlobalTallyUnfolded(moduleName: string, host: Host)
    ensures GlobalTally(moduleName, host) ==
      NoTally.Then(GlobalAttempt(moduleName, "node", host)).Then(GlobalAttempt(moduleName, "python", host))
  {
    assert GlobalEcosystems[..1] == ["node"];
    assert ["node"][..0] == [];
  }

  /** A global install exits with 1 exactly when no ecosystem both has its
      tool and installs the package. */
  lemma GlobalFailsIffNoneSucceeds(moduleName: string, host: Host)
    ensures GlobalTally(moduleName, host).installed == 0 <==>
      !(ValidateTools("node", host) && InstallPackage(moduleName, "node", true, false, host).result.Ok?) &&
      !(ValidateTools("python", host) && InstallPackage(moduleName, "python", true, false, host).result.Ok?)
  {
    GlobalTallyUnfolded(moduleName, host);
  }

  /** A global install does not stop at the first success: with both tools
      present both ecosystems are tried, node first. */
  lemma GlobalTriesEveryEcosystem(moduleName: string, host: Host)
    requires ValidateTools("node", host) && ValidateTools("python", host)
    ensures GlobalTally(moduleName, host).cmds ==
      InstallPackage(moduleName, "node", true, false, host).cmds + InstallPackage(moduleName, "python", true, false, host).cmds
  {
    GlobalTallyUnfolded(moduleName, host);
    var node := GlobalAttempt(moduleName, "node", host);
    var python := GlobalAttempt(moduleName, "python", host);
    assert node.cmds == InstallPackage(moduleName, "node", true, false, host).cmds;
    assert python.cmds == InstallPackage(moduleName, "python", true, false, host).cmds;
    assert NoTally.Then(node).cmds == node.cmds;
  }

  lemma {:induction false} OthersThanAll(ds: seq<Detected>, primary: string)
    requires forall i :: 0 <= i < |ds| ==> Id(ds[i].eco) != primary
    ensures OthersThan(ds, primary) == seq(|ds|, i requires 0 <= i < |ds| => Id(ds[i].eco))
  {
    if ds != [] {
      OthersThanAll(ds[1..], primary);
    }
  }

  /** The polyglot note names exactly the detected types after the primary,
      in detection order. */
  lemma PolyglotNoteListsTheRest(dir: set<string>)
    requires |Detect(dir)| > 1
    ensures var d := Detect(dir);
      OthersThan(d, Id(d[0].eco)) == seq(|d| - 1, i requires 0 <= i < |d| - 1 => Id(d[i + 1].eco))
  {
    var d := Detect(dir);
    DetectOrdered(dir);
    forall i | 0 <= i < |d[1..]| ensures Id(d[1..][i].eco) != Id(d[0].eco) {
      assert d[1..][i] == d[i + 1];
      ParseId(d[0].eco);
      ParseId(d[i + 1].eco);
    }
    OthersThanAll(d[1..], Id(d[0].eco));
  }
}
