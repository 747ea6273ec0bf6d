# taiz decision logic in Dafny

`taiz` is a command-line tool that manages dependencies across several
language ecosystems from one project file. This project models the decision
logic that sits between its commands and the external package managers, and
proves properties of that model:

- which ecosystems a project root is detected as (`node`, `python`, `rust`,
  `go`, by marker files);
- how the manifest `taiz.yaml` and the lockfile `taiz-lock.yaml` change when a
  package is added or removed;
- which external command lines are run to install or uninstall a package, to
  look up its version and to start, build or run a project;
- what each of the commands `install`, `dev`, `build`, `run` and `uninstall`
  does: the commands it issues, whether it exits with code 1, and the two
  files it leaves behind.

Files, processes and the PATH are inputs:

- A project root is the set of names present in it.
- Each file is `Missing`, `Blank` (parses to nothing), a document, or
  `Malformed`.
- A `Host` value answers, for each command line, how the child ends and what
  it prints, and for each tool whether it is on the PATH.
- A command's result is an `Outcome`. It holds the command lines issued in
  order, the exit flag, both files afterwards, and the notices that matter
  (for example "Installed 3 packages" as `InstalledCount(3)`).

The YAML documents are JavaScript objects used as dictionaries. `Objects.Obj`
models them as an ordered map: keys in insertion order plus a value per key.
That is the order `Object.keys` gives for keys that are not array indices; see
"## Left out" for keys such as `"42"`.
The batch install and the script listing walk those keys in order.

Modules:

| module | file | models |
|---|---|---|
| `Wrappers`, `Strings`, `Objects` | wrappers.dfy, strings.dfy, objects.dfy | `Option`/`Result`; `split`, `join` and `trim` on strings; plain objects with `Object.keys` order |
| `Detector` | detector.dfy | src/detector.js |
| `ConfigStore` | config.dfy | src/config.js, with `addDependency`/`removeDependency` as methods of the class `ProjectStore` |
| `Installer` | installer.dfy | src/installer.js |
| `Dispatch` | dispatch.dfy | what the command handlers share: environment, outcome, custom-script override, `split(' ')` |
| `InstallCmd`, `DevCmd`, `BuildCmd`, `RunCmd`, `UninstallCmd` | install.dfy, dev.dfy, build.dfy, run.dfy, uninstall.dfy | src/commands/*.js |

Imperative parts of the source are methods with loops, proved equal to a
function that is itself characterised by lemmas:

- `detectProjectTypes` and the dev command's Python entry-file search;
- the in-place updates of `addDependency` and `removeDependency`;
- the batch and global install loops with their counters.

Loop-free handlers (`build`, `run`, `uninstall`) are functions.

Where the documented behaviour and the code disagree, the model follows the
code:

- `removeDependency` of a package that is not listed is not always a no-op.
  An ecosystem sub-map that is already `{}` is truthy, so it is deleted anyway
  (src/config.js:140-146, `ConfigStore.AbsentRemovalPrunesEmptySubmap`).
- `ConfigStore.RemoveAbsentUnchanged` states the no-op property under the
  precondition that no such empty sub-map exists.

## Model

| member | source | states |
|---|---|---|
| Objects.Put | src/config.js:111 | assigning a key sets it, keeps every other key's value, keeps key order and appends a new key |
| Objects.Delete | src/config.js:141 | deleting a key removes it, keeps every other key's value, removes it from the key order, and is a no-op for a missing key |
| Objects.PutPut | src/config.js:111 | a second assignment to the same key overrides the first |
| Objects.DeletePut | src/config.js:141 | deleting a key undoes an assignment to it, including one that added it |
| Strings.Split | src/commands/run.js:43 | `split` on one character yields at least one part, no part holds the separator, and joining the parts gives the string back |
| Strings.SplitJoin | src/commands/run.js:43 | splitting the join of separator-free parts gives those parts back |
| Strings.SplitLast | src/installer.js:74 | the last part of a split is a separator-free suffix, preceded by the separator when shorter than the string |
| Strings.Trim | src/installer.js:74 | `trim` keeps the infix of the input left after cutting whitespace at both ends: everything cut is whitespace, the kept part neither starts nor ends with whitespace, and it is empty exactly when the input is all whitespace |
| Detector.ParseEcosystem | src/detector.js:12-37 | a table row exists exactly for `node`, `python`, `rust`, `go`, and its key is the given string |
| Detector.FirstPresent | src/detector.js:48-57 | none exactly when no listed file is present; otherwise the earliest listed file that is present |
| Detector.FindFirstPresent | src/detector.js:48-57 | the loop that breaks at the first existing file returns that first present file |
| Detector.DetectRows | src/detector.js:47-59 | the outer loop over table rows pushes one tagged entry per row with a present marker, in row order |
| Detector.DetectProjectTypes | src/detector.js:44-62 | `detectProjectTypes` returns the detection of the project root |
| Detector.DetectInMembership | src/detector.js:47-58 | an entry is detected over a row list exactly when its ecosystem is in the list and its tag is that ecosystem's first present marker |
| Detector.DetectMembership | src/detector.js:47-58 | `Detected(e, f)` is returned exactly when `f` is the first present marker of `e` |
| Detector.DetectedIffMarkerPresent | src/detector.js:47-58 | an ecosystem is detected if and only if one of its marker files is present |
| Detector.DetectInOrdered | src/detector.js:47-59 | detection over rows in increasing table order returns entries in increasing table order |
| Detector.DetectOrdered | src/detector.js:47-59 | detected ecosystems come in declaration order node, python, rust, go, each at most once |
| Detector.SingleMarker | src/detector.js:47-59 | a root whose only known marker is `f` is detected as `f`'s ecosystem alone |
| Detector.MarkersDisjoint | src/detector.js:12-37 | no marker file belongs to two ecosystems |
| Detector.RequirementsWins | src/detector.js:20 | with `requirements.txt` present, python is tagged with it, ahead of `pyproject.toml` and `setup.py` |
| Detector.PrimaryAbsentIffNoMarker | src/detector.js:69-72 | there is no primary type exactly when no marker file of any ecosystem is present |
| Detector.PrimaryIsEarliest | src/detector.js:69-72 | the primary type is the earliest ecosystem with a present marker, tagged with its first present marker |
| Detector.PolyglotIffTwoEcosystems | src/detector.js:79-82 | a project is polyglot exactly when two different ecosystems each have a marker present |
| Detector.GetInstallCommand | src/detector.js:90-108 | unknown types are an error; otherwise the row's install command, a space, and the module |
| Detector.GetUninstallCommand | src/detector.js:116-129 | `go mod tidy` for go whatever the module, `-y` after the module for python, `npm uninstall`/`cargo remove` for node/rust, an error otherwise |
| Installer.ExecuteCommand | src/installer.js:17-39 | succeeds exactly when the child closes with exit code 0, otherwise fails with how it ended |
| Installer.ToolFor | src/installer.js:200-207 | there is a tool exactly for the four known types |
| Installer.ValidateTools | src/installer.js:199-217 | false for any other type, otherwise whether that type's tool (`npm`, `pip`, `cargo`, `go`) is on the PATH |
| Installer.VersionFromOutput | src/installer.js:74-75 | never empty; `1.0.0` exactly for all-whitespace output, otherwise the last line of the trimmed output |
| Installer.LastLine | src/installer.js:74 | the last line of trimmed output is a suffix without line breaks, empty only when the trimmed output is empty |
| Installer.GetLatestVersion | src/installer.js:47-85 | never empty; `1.0.0` for other types with no command run, and on any exit other than 0; otherwise the version read from the output of `npm view`/`pip index versions` |
| Installer.InstallArgs | src/installer.js:94-127 | npm: `install`, `-g` if global, `--save-dev` only if dev and not global, module last; pip: `install`, `--user` if global, module; cargo `add m`; go `get m`; an unknown type fails before any command |
| Installer.InstallFlagsIgnored | src/installer.js:99-123 | the dev flag matters only to a non-global npm install; cargo and go ignore both flags |
| Installer.InstallCommandAgreesWithArgs | src/detector.js:96-104 | the install string `getInstallCommand` builds is the command `installPackage` runs, word for word, and both reject the same types |
| Installer.UninstallCommandAgreesWithArgs | src/detector.js:117-125 | for node and rust the uninstall string is the command `uninstallPackage` runs; for go there is a string but no command |
| Installer.InstallPackage | src/installer.js:94-134 | issues the install command and, only if it succeeds, the version lookup; fails exactly when the install command fails; the result is never empty; every command runs the type's tool |
| Installer.UninstallArgs | src/installer.js:142-172 | npm `uninstall [-g] m`, pip `uninstall -y m`, cargo `remove m`, no command for go, an error for unknown types |
| Installer.UninstallPackage | src/installer.js:142-175 | runs that command, if any, and succeeds exactly when it exits with 0 |
| ConfigStore.KindFor | src/config.js:107 | `devDependencies` exactly when `isDev` |
| ConfigStore.PutEntry | src/config.js:108-111 | the entry is set, every other entry of the section is kept, the section's ecosystems gain only this one |
| ConfigStore.RemoveEntry | src/config.js:140-147 | the entry is cleared, every other entry is kept, other ecosystems are untouched, and no empty sub-map for the ecosystem remains |
| ConfigStore.AddTo | src/config.js:107-111 | the entry in the chosen section is set; every other entry of the document is kept; the other section is untouched |
| ConfigStore.RemoveEverywhere | src/config.js:139-157 | the entry is cleared in both sections; all other entries are kept; no empty sub-map for the ecosystem is left |
| ConfigStore.LoadConfig | src/config.js:45-54 | a missing or blank file gives the default manifest (empty name, `1.0.0`, empty sections, scripts `dev`/`build`); a parse error is an error |
| ConfigStore.LoadLockfile | src/config.js:72-81 | a missing or blank file gives the default lockfile (`1.0.0`, lockfile version 1, empty sections); a parse error is an error |
| ConfigStore.LockRecord | src/config.js:117-122 | the record holds the exact version, the type and the placeholder integrity |
| ConfigStore.AddedManifest | src/config.js:107-111 | the entry under section, type and module is `^version`; every other entry and field is unchanged |
| ConfigStore.AddedLock | src/config.js:113-122 | the entry is the exact-version record; every other entry and field is unchanged |
| ConfigStore.RemovedManifest | src/config.js:139-157 | the module is gone under the type in both sections; the other fields are unchanged |
| ConfigStore.RemovedLock | src/config.js:139-157 | the same for the lockfile |
| ConfigStore.ProjectStore.constructor | src/config.js:103-104 | the store holds the two loaded documents |
| ConfigStore.ProjectStore.AddDependency | src/config.js:102-126 | updates the manifest and the lockfile in place to the documents after `addDependency` |
| ConfigStore.ProjectStore.AddToConfig | src/config.js:107-111 | creates the section and sub-map when missing and stores the caret range; the lockfile is untouched |
| ConfigStore.ProjectStore.AddToLock | src/config.js:113-122 | creates the same path in the lockfile and stores the record; the manifest is untouched |
| ConfigStore.ProjectStore.RemoveDependency | src/config.js:134-161 | the loop over both sections updates both documents in place to the documents after `removeDependency` |
| ConfigStore.InitializeProject | src/config.js:169-180 | the default manifest with the project name (the directory name when empty) and the detected type ids in order; the default lockfile |
| ConfigStore.PutEntryTwice | src/config.js:111 | assigning the same entry twice equals assigning it once |
| ConfigStore.AddDependencyIdempotent | src/config.js:107-122 | `addDependency` twice with the same arguments gives the documents that one call gives |
| ConfigStore.RemoveEntryAfterPut | src/config.js:140-146 | removing right after assigning in an existing section equals removing alone, key order included |
| ConfigStore.RemoveAfterAddSections | src/config.js:139-157 | the same for both sections of a document |
| ConfigStore.RemoveAfterAdd | src/config.js:102-157 | `removeDependency` after `addDependency` into an existing section leaves the documents that removal alone leaves |
| ConfigStore.RemoveEntryAbsent | src/config.js:140-147 | removing an absent entry changes nothing when no empty sub-map is waiting to be pruned |
| ConfigStore.RemoveAbsentUnchanged | src/config.js:139-157 | removing an unlisted package leaves both documents unchanged when no empty sub-map for the type exists |
| ConfigStore.AbsentRemovalPrunesEmptySubmap | src/config.js:140-146 | an empty sub-map is pruned even though the package was not there |
| ConfigStore.RemovePrunesAndFrames | src/config.js:139-157 | in the manifest and in the lockfile, no empty sub-map for the type remains afterwards; other ecosystems and other modules under the type are untouched |
| Dispatch.SplitCommand | src/commands/run.js:43 | the program and arguments, joined with single spaces, give back the script; no word contains a space |
| Dispatch.SplitCommandJoin | src/commands/run.js:43 | a command line of space-free words is recovered from its script |
| Dispatch.CustomScript | src/commands/dev.js:24 | a custom script exists exactly when the scripts map has a non-empty value for the key that differs from the built-in one |
| Dispatch.DefaultHasNoCustomScripts | src/config.js:23-26 | the default manifest keeps the built-in dev and build handlers |
| Dispatch.RunPlan | src/commands/build.js:92-98 | running the chosen command fails exactly when it exits non-zero; the success notice follows only a zero exit; files unchanged |
| RunCmd.FindScript | src/commands/run.js:23 | a script is found exactly when the map exists and holds a non-empty value for the name |
| RunCmd.AvailableScripts | src/commands/run.js:26-34 | on a miss the listed names are exactly the defined script names; none when there is no map |
| RunCmd.RunCommand | src/commands/run.js:14-52 | a missing map, key or value exits with 1 and runs nothing; a found script runs as exactly the command `split(' ')` makes of it, which joins back to the script; exits with 1 exactly when that command fails |
| RunCmd.RunSplitsOnSpaces | src/commands/run.js:39-44 | the command run is the script's first space-separated word with the remaining words, empty ones included, as arguments |
| BuildCmd.BuildTarget | src/commands/build.js:51-90 | node builds with `npm run build` only with a `build` script, python never runs a command, rust `cargo build --release`, go `go build`; the program is the type's tool |
| BuildCmd.BuildCommand | src/commands/build.js:14-100 | a custom build script overrides detection; no type or no tool exits with 1 and runs nothing; otherwise the primary type's target; completion reported only after exit 0 |
| BuildCmd.PythonBuildIsPlaceholder | src/commands/build.js:72-75 | a Python project returns normally with no command |
| BuildCmd.BuildActsOnPrimaryOnly | src/commands/build.js:39-51 | the command run is the primary type's; no other detected type's tool runs |
| DevCmd.PythonEntry | src/commands/dev.js:88-95 | `python <file>`, with `runserver` added exactly for `manage.py` |
| DevCmd.DevTarget | src/commands/dev.js:52-116 | node: `npm run dev`, else `npm run start`, else nothing; python: the first present of app.py, main.py, server.py, manage.py, else nothing; `cargo run`; `go run .` |
| DevCmd.DevPlan | src/commands/dev.js:52-116 | the `switch` with its Python search loop picks that target |
| DevCmd.DevCommand | src/commands/dev.js:14-125 | a custom dev script overrides detection; no type or no tool exits with 1 and runs nothing; otherwise only the primary type's target runs; files unchanged |
| DevCmd.DjangoRunserver | src/commands/dev.js:78-95 | with only `manage.py` present, dev runs `python manage.py runserver` |
| UninstallCmd.UninstallCommand | src/commands/uninstall.js:15-74 | empty name returns normally with no command; no type or no tool exits with 1 first; the unlisted warning is given exactly when the module is unlisted; it fails exactly when the uninstall step fails or the lockfile does not parse; otherwise both files are pruned of the module; a failure changes no file |
| UninstallCmd.UninstallClearsEntries | src/commands/uninstall.js:55-58 | after a successful uninstall the module is absent under the primary type in both sections of both files |
| UninstallCmd.GoUninstallOnlyPrunes | src/commands/uninstall.js:55-58 | for go no command runs, yet the manifest is pruned |
| InstallCmd.InstallModules | src/commands/install.js:36-45 | the inner loop installs each package in key order, without the recorded range; it counts the successes |
| InstallCmd.InstallEcosystem | src/commands/install.js:29-45 | an ecosystem whose tool is missing is skipped entirely |
| InstallCmd.InstallSection | src/commands/install.js:28-46 | the outer loop over a section's ecosystems, in key order |
| InstallCmd.InstallAllDependencies | src/commands/install.js:15-73 | returns early only when both sections are absent; otherwise the regular section, then the dev section with `dev`, and the total |
| InstallCmd.ModulesOnPath | src/commands/install.js:36-45 | every command of an available ecosystem's attempts runs a tool on the PATH |
| InstallCmd.SectionOnPath | src/commands/install.js:28-46 | the same for a whole section |
| InstallCmd.BatchRunsOnlyAvailableTools | src/commands/install.js:28-70 | the batch never runs a package manager that is not on the PATH |
| InstallCmd.ModulesCount | src/commands/install.js:36-45 | the count is at most the number of packages, all of them when every install succeeds, none when all fail |
| InstallCmd.SectionCount | src/commands/install.js:28-46 | a section's count is at most its eligible packages, exactly that when every attempt succeeds |
| InstallCmd.ModulesCountsSuccesses | src/commands/install.js:36-45 | an ecosystem's counter is the number of its packages whose install succeeds |
| InstallCmd.SectionCountsSuccesses | src/commands/install.js:28-46 | a section's counter is the number of (ecosystem, package) pairs with the tool on the PATH and a successful install |
| InstallCmd.BatchTotalCountsSuccesses | src/commands/install.js:24-72 | the reported total is the number of successful installs of the regular section plus that of the dev section, an absent section contributing none |
| InstallCmd.BatchTotalBounded | src/commands/install.js:24-72 | the total is at most the packages listed under available ecosystems, and exactly that when every install succeeds; an absent section contributes none |
| InstallCmd.EmptySectionsReportZero | src/commands/install.js:19-24 | empty sections do not return early: nothing runs and 0 is reported |
| InstallCmd.EmptySectionTally | src/commands/install.js:27-28 | a present section without ecosystems attempts nothing |
| InstallCmd.InstallGlobal | src/commands/install.js:126-151 | tries node then python, installing in every available one; exits with 1 exactly when none succeeded; files unchanged |
| InstallCmd.GlobalTallyUnfolded | src/commands/install.js:129-143 | the global attempts are exactly node then python |
| InstallCmd.GlobalFailsIffNoneSucceeds | src/commands/install.js:130-148 | a global install fails exactly when no ecosystem both has its tool and installs |
| InstallCmd.GlobalTriesEveryEcosystem | src/commands/install.js:132-143 | with both tools present both install commands run, node first, even after a success |
| InstallCmd.InstallLocal | src/commands/install.js:117-183 | no detected type returns normally; a missing tool exits with 1 first; the package is recorded only after the install succeeded; any failure exits with 1 and changes no file |
| InstallCmd.InstallCommand | src/commands/install.js:80-189 | refuses a global batch without failing; an empty name returns normally; dispatches to the batch, global and local installs with their outcomes |
| InstallCmd.OthersThanAll | src/commands/install.js:181 | filtering out a type that does not occur keeps every id in order |
| InstallCmd.PolyglotNoteListsTheRest | src/commands/install.js:179-181 | the polyglot note names exactly the detected types after the primary, in order |

## Left out

- Spawning processes, `which`, streaming and capturing output are a `Host` value. The `shell: true` re-joining of arguments by the system shell is not modelled.
- YAML parsing and printing, and reading and writing files, are not modelled. A file is one of four states. Write errors are not modelled.
- Fields of the documents whose type differs from the documented one (a null or scalar ecosystem sub-map, a non-string script) are not modelled. Some of these make the source throw.
- Lookups of prototype keys such as `constructor` are not modelled; every lookup sees only the keys the document or table defines. This affects four lookups:
  - `PROJECT_TYPES` and the tool map;
  - the scripts map of `taiz run` (src/commands/run.js:23): `taiz run constructor` finds the inherited function and then throws at `.split`, exiting with 1 without listing the scripts, where RunCmd.FindScript reports the script as not found and lists them;
  - the ecosystem sub-maps of the uninstall check (src/commands/uninstall.js:46): for the module `constructor` the inherited value is truthy, so the source prints no warning, where the model gives `NotListed`.
- Objects.Put: appends a new key at the end of the key order. JavaScript lists array-index keys (`"0"`, `"42"`) first, in ascending numeric order, and only then the other keys in creation order. The model does not capture this, so for such package names the key order it gives (used by the batch install at src/commands/install.js:36 and written to the files) differs from the source's.
- The sharing of `DEFAULT_CONFIG` by the value that `loadConfig` returns is not modelled (src/config.js:50, src/config.js:53). A load returns a fresh default value.
- `chalk`, console output and message wording are left out. The notices that matter are values.
- `async`/`await` and `process.exit` are not modelled: execution is sequential, and exit code 1 is a flag in the outcome.
- Detection is a pure function of the project root, so its repeated calls in one command (`getPrimaryProjectType` re-scans) agree.
- Branches the rest of the code makes unreachable are omitted:
  - the node handler without a `package.json` (node is only detected through that file);
  - the local install with no primary type after the detection guard;
  - the `switch` defaults on the four known types.
- The `detectProjectTypes` calls whose result is unused are not modelled: in `installAllDependencies` (src/commands/install.js:17), and in a global install, where it only gates the non-global case.
- The `commander` wiring in bin/taiz.js, src/commands/init.js and the release scripts under scripts/ are not part of this model.
- ConfigStore.RemoveAfterAdd: stated only for a section that already exists, because `addDependency` creates a missing section and removal then leaves it in place, empty.
- ConfigStore.RemoveAbsentUnchanged: requires that no empty sub-map for the type exists, because the code prunes one even when the package is absent (ConfigStore.AbsentRemovalPrunesEmptySubmap).
- InstallCmd.InstallCommand: for the local path it states the commands, the exit flag and the manifest only. The no-detection and missing-tool cases, the lockfile and the notices are stated by InstallCmd.InstallLocal, which it calls.
