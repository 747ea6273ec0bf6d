/** The project manifest `taiz.yaml` and lockfile `taiz-lock.yaml`
    (src/config.js). Both documents keep their dependencies in two sections,
    `dependencies` and `devDependencies`, each a nested map
    ecosystem id -> package name -> value: a `^version` range in the
    manifest, an exact-version record in the lockfile. */
module ConfigStore {
  import opened Wrappers
  import opened Objects
  import Detector

  const ConfigFile: string := "taiz.yaml"
  const LockFile: string := "taiz-lock.yaml"

  /** One dependency section: ecosystem id -> package name -> value. */
  type Bucket<V> = Obj<Obj<V>>

  datatype DepKind = Regular | Dev

  /** The order in which `removeDependency` visits the sections. */
  const DepKinds: seq<DepKind> := [Regular, Dev]

  /** The section `addDependency` writes to. */
  function KindFor(isDev: bool): (k: DepKind)
    ensures k == Dev <==> isDev
  {
    if isDev then Dev else Regular
  }

  /** The two sections of a document; `None` for a section that is absent
      or null, which the source treats alike (both are falsy). */
  datatype Sections<V> = Sections(dependencies: Option<Bucket<V>>, devDependencies: Option<Bucket<V>>)
  {
    function Of(k: DepKind): Option<Bucket<V>> {
      match k
      case Regular => dependencies
      case Dev => devDependencies
    }

    function With(k: DepKind, b: Option<Bucket<V>>): (r: Sections<V>)
      ensures r.Of(k) == b
      ensures forall k' :: k' != k ==> r.Of(k') == Of(k')
    {
      match k
      case Regular => this.(dependencies := b)
      case Dev => this.(devDependencies := b)
    }
  }

  /** `section[t][m]` with every missing level read as `undefined`. */
  function Lookup<V>(b: Option<Bucket<V>>, t: string, m: string): Option<V> {
    match b
    case None => None
    case Some(bucket) =>
      match Get(bucket, t)
      case None => None
      case Some(sub) => Get(sub, m)
  }

  function Entry<V>(s: Sections<V>, k: DepKind, t: string, m: string): Option<V> {
    Lookup(s.Of(k), t, m)
  }

  /** Lines 108-111 (and 114-122): create the section and the ecosystem
      sub-map when missing, then assign the package. An existing sub-map is
      kept even when empty, since `{}` is truthy. */
  function PutEntry<V>(b: Option<Bucket<V>>, t: string, m: string, v: V): (r: Bucket<V>)
    ensures Lookup(Some(r), t, m) == Some(v)
    ensures forall t', m' :: (t', m') != (t, m) ==> Lookup(Some(r), t', m') == Lookup(b, t', m')
    ensures forall t' :: t' in r.keys <==> t' == t || (b.Some? && t' in b.value.keys)
    ensures b.Some? ==> forall t' :: t' != t ==> Get(r, t') == Get(b.value, t')
  {
    var bucket := b.GetOr(Empty());
    var sub := Get(bucket, t).GetOr(Empty());
    Put(bucket, t, Put(sub, m, v))
  }

  /** Lines 140-147 (and 149-156) for one section: when the section and
      the ecosystem sub-map exist, delete the package and then drop the
      sub-map if that left it empty. */
  function RemoveEntry<V>(b: Option<Bucket<V>>, t: string, m: string): (r: Option<Bucket<V>>)
    ensures r.Some? <==> b.Some?
    ensures Lookup(r, t, m) == None
    ensures forall t', m' :: (t', m') != (t, m) ==> Lookup(r, t', m') == Lookup(b, t', m')
    ensures r.Some? ==> forall t' :: t' != t ==> Get(r.value, t') == Get(b.value, t')
    ensures r.Some? && Get(r.value, t).Some? ==> Get(b.value, t).Some? && Get(r.value, t).value.keys != []
  {
    match b
    case None => None
    case Some(bucket) =>
      match Get(bucket, t)
      case None => b
      case Some(sub) =>
        var rest := Delete(sub, m);
        if rest.keys == [] then Some(Delete(bucket, t)) else Some(Put(bucket, t, rest))
  }

  /** The package added to one section of a document. */
  function AddTo<V>(s: Sections<V>, k: DepKind, t: string, m: string, v: V): (r: Sections<V>)
    ensures Entry(r, k, t, m) == Some(v)
    ensures forall k', t', m' :: (k', t', m') != (k, t, m) ==> Entry(r, k', t', m') == Entry(s, k', t', m')
    ensures forall k' :: k' != k ==> r.Of(k') == s.Of(k')
    ensures r.Of(k).Some?
  {
    s.With(k, Some(PutEntry(s.Of(k), t, m, v)))
  }

  /** The package removed from both sections of a document. */
  function RemoveEverywhere<V>(s: Sections<V>, t: string, m: string): (r: Sections<V>)
    ensures forall k :: Entry(r, k, t, m) == None
    ensures forall k, t', m' :: (t', m') != (t, m) ==> Entry(r, k, t', m') == Entry(s, k, t', m')
    ensures forall k :: r.Of(k).Some? <==> s.Of(k).Some?
    ensures forall k :: r.Of(k).Some? ==> forall t' :: t' != t ==> Get(r.Of(k).value, t') == Get(s.Of(k).value, t')
    ensures forall k :: r.Of(k).Some? && Get(r.Of(k).value, t).Some? ==> Get(r.Of(k).value, t).value.keys != []
  {
    Sections(RemoveEntry(s.dependencies, t, m), RemoveEntry(s.devDependencies, t, m))
  }

  /** The manifest. Fields the tool does not read are not modelled; a
      missing `name` reads as "". */
  datatype Manifest = Manifest(
    name: string,
    version: string,
    description: string,
    deps: Sections<string>,
    scripts: Option<Obj<string>>,
    projectTypes: seq<string>)

  datatype LockEntry = LockEntry(version: string, resolved: string, integrity: string, projectType: string)

  datatype Lockfile = Lockfile(version: string, lockfileVersion: int, deps: Sections<LockEntry>)

  /** `DEFAULT_CONFIG`. */
  function DefaultConfig(): Manifest {
    Manifest("", "1.0.0", "", Sections(Some(Empty()), Some(Empty())),
             Some(Put(Put(Empty(), "dev", "taiz dev"), "build", "taiz build")), [])
  }

  /** `DEFAULT_LOCK`. */
  function DefaultLock(): Lockfile {
    Lockfile("1.0.0", 1, Sections(Some(Empty()), Some(Empty())))
  }

  /** What a file holds: nothing, a document that parses to a falsy value
      (an empty file), a document, or text that is not YAML. */
  datatype Stored<T> = Missing | Blank | Doc(doc: T) | Malformed

  datatype LoadError = ParseError(file: string)

  /** `loadConfig`: the default for a missing or empty file; a parse error
      propagates. */
  function LoadConfig(f: Stored<Manifest>): (r: Result<Manifest, LoadError>)
    ensures r.Err? <==> f.Malformed?
    ensures f.Doc? ==> r == Ok(f.doc)
    ensures f.Missing? || f.Blank? ==>
      r.Ok? && r.value.name == "" && r.value.version == "1.0.0" && r.value.projectTypes == [] &&
      (forall k :: r.value.deps.Of(k) == Some(Empty())) &&
      r.value.scripts.Some? && r.value.scripts.value.keys == ["dev", "build"] &&
      Get(r.value.scripts.value, "dev") == Some("taiz dev") &&
      Get(r.value.scripts.value, "build") == Some("taiz build")
  {
    match f
    case Missing => Ok(DefaultConfig())
    case Blank => Ok(DefaultConfig())
    case Doc(c) => Ok(c)
    case Malformed => Err(ParseError(ConfigFile))
  }

  /** `loadLockfile`. */
  function LoadLockfile(f: Stored<Lockfile>): (r: Result<Lockfile, LoadError>)
    ensures r.Err? <==> f.Malformed?
    ensures f.Doc? ==> r == Ok(f.doc)
    ensures f.Missing? || f.Blank? ==>
      r.Ok? && r.value.version == "1.0.0" && r.value.lockfileVersion == 1 &&
      forall k :: r.value.deps.Of(k) == Some(Empty())
  {
    match f
    case Missing => Ok(DefaultLock())
    case Blank => Ok(DefaultLock())
    case Doc(l) => Ok(l)
    case Malformed => Err(ParseError(LockFile))
  }

  /** The placeholder registry URL of line 119. */
  function ResolvedUrl(moduleName: string, version: string): string {
    "https://registry.npmjs.org/" + moduleName + "/-/" + moduleName + "-" + version + ".tgz"
  }

  /** The lockfile record of lines 117-122. */
  function LockRecord(moduleName: string, version: string, projectType: string): (e: LockEntry)
    ensures e.version == version && e.projectType == projectType
    ensures e.integrity == "sha512-placeholder"
  {
    LockEntry(version, ResolvedUrl(moduleName, version), "sha512-placeholder", projectType)
  }

  /** The manifest after `addDependency`. */
  function AddedManifest(c: Manifest, moduleName: string, version: string, projectType: string, isDev: bool): (r: Manifest)
    ensures Entry(r.deps, KindFor(isDev), projectType, moduleName) == Some("^" + version)
    ensures forall k, t, m :: (k, t, m) != (KindFor(isDev), projectType, moduleName) ==>
      Entry(r.deps, k, t, m) == Entry(c.deps, k, t, m)
    ensures r.deps.Of(KindFor(!isDev)) == c.deps.Of(KindFor(!isDev))
    ensures r.(deps := c.deps) == c
  {
    c.(deps := AddTo(c.deps, KindFor(isDev), projectType, moduleName, "^" + version))
  }

  /** The lockfile after `addDependency`. */
  function AddedLock(l: Lockfile, moduleName: string, version: string, projectType: string, isDev: bool): (r: Lockfile)
    ensures Entry(r.deps, KindFor(isDev), projectType, moduleName) == Some(LockRecord(moduleName, version, projectType))
    ensures forall k, t, m :: (k, t, m) != (KindFor(isDev), projectType, moduleName) ==>
      Entry(r.deps, k, t, m) == Entry(l.deps, k, t, m)
    ensures r.deps.Of(KindFor(!isDev)) == l.deps.Of(KindFor(!isDev))
    ensures r.(deps := l.deps) == l
  {
    l.(deps := AddTo(l.deps, KindFor(isDev), projectType, moduleName, LockRecord(moduleName, version, projectType)))
  }

  /** The manifest after `removeDependency`. */
  function RemovedManifest(c: Manifest, moduleName: string, projectType: string): (r: Manifest)
    ensures forall k :: Entry(r.deps, k, projectType, moduleName) == None
    ensures r.(deps := c.deps) == c
  {
    c.(deps := RemoveEverywhere(c.deps, projectType, moduleName))
  }

  /** The lockfile after `removeDependency`. */
  function RemovedLock(l: Lockfile, moduleName: string, projectType: string): (r: Lockfile)
    ensures forall k :: Entry(r.deps, k, projectType, moduleName) == None
    ensures r.(deps := l.deps) == l
  {
    l.(deps := RemoveEverywhere(l.deps, projectType, moduleName))
  }

  /** The two documents of a project, loaded; `addDependency` and
      `removeDependency` update them in place before writing them back. */
  class ProjectStore {
    var config: Manifest
    var lock: Lockfile

    constructor (config: Manifest, lock: Lockfile)
      ensures this.config == config && this.lock == lock
    {
      this.config := config;
      this.lock := lock;
    }

    /** `addDependency`, lines 107-122. */
    method AddDependency(moduleName: string, version: string, projectType: string, isDev: bool)
      modifies this
      ensures config == AddedManifest(old(config), moduleName, version, projectType, isDev)
      ensures lock == AddedLock(old(lock), moduleName, version, projectType, isDev)
    {
      AddToConfig(moduleName, version, projectType, isDev);
      AddToLock(moduleName, version, projectType, isDev);
    }

    /** Lines 108-111: the section and the ecosystem sub-map created when
        missing, then the caret range stored. */
    method AddToConfig(moduleName: string, version: string, projectType: string, isDev: bool)
      modifies this
      ensures config == AddedManifest(old(config), moduleName, version, projectType, isDev)
      ensures lock == old(lock)
    {
      var depKey := KindFor(isDev);
      var deps := config.deps.Of(depKey);
      if deps.None? { deps := Some(Empty()); }
      var sub := Get(deps.value, projectType);
      if sub.None? { sub := Some(Empty()); }
      var range := "^" + version;
      config := config.(deps := config.deps.With(depKey, Some(Put(deps.value, projectType, Put(sub.value, moduleName, range)))));
    }

    /** Lines 114-121: the same path in the lockfile, then the record. */
    method AddToLock(moduleName: string, version: string, projectType: string, isDev: bool)
      modifies this
      ensures lock == AddedLock(old(lock), moduleName, version, projectType, isDev)
      ensures config == old(config)
    {
      var depKey := KindFor(isDev);
      var lockDeps := lock.deps.Of(depKey);
      if lockDeps.None? { lockDeps := Some(Empty()); }
      var lockSub := Get(lockDeps.value, projectType);
      if lockSub.None? { lockSub := Some(Empty()); }
      var record := LockEntry(version, ResolvedUrl(moduleName, version), "sha512-placeholder", projectType);
      lock := lock.(deps := lock.deps.With(depKey, Some(Put(lockDeps.value, projectType, Put(lockSub.value, moduleName, record)))));
    }

    /** `removeDependency`, lines 139-157: the `forEach` over both
        sections, pruning an emptied ecosystem sub-map. */
    method RemoveDependency(moduleName: string, projectType: string)
      modifies this
      ensures config == RemovedManifest(old(config), moduleName, projectType)
      ensures lock == RemovedLock(old(lock), moduleName, projectType)
    {
      for i := 0 to |DepKinds|
        invariant config == old(config).(deps := PartlyRemoved(old(config).deps, projectType, moduleName, i))
        invariant lock == old(lock).(deps := PartlyRemoved(old(lock).deps, projectType, moduleName, i))
      {
        var depType := DepKinds[i];
        var deps := config.deps.Of(depType);
        assert deps == old(config).deps.Of(depType);
        if deps.Some? && Get(deps.value, projectType).Some? {
          var rest := Delete(deps.value.vals[projectType], moduleName);
          var bucket := if rest.keys == [] then Delete(deps.value, projectType) else Put(deps.value, projectType, rest);
          assert Some(bucket) == RemoveEntry(deps, projectType, moduleName);
          config := config.(deps := config.deps.With(depType, Some(bucket)));
        }
        var lockDeps := lock.deps.Of(depType);
        assert lockDeps == old(lock).deps.Of(depType);
        if lockDeps.Some? && Get(lockDeps.value, projectType).Some? {
          var rest := Delete(lockDeps.value.vals[projectType], moduleName);
          var bucket := if rest.keys == [] then Delete(lockDeps.value, projectType) else Put(lockDeps.value, projectType, rest);
          assert Some(bucket) == RemoveEntry(lockDeps, projectType, moduleName);
          lock := lock.(deps := lock.deps.With(depType, Some(bucket)));
        }
      }
    }
  }

  /** The first `n` sections of `DepKinds` visited by `removeDependency`. */
  function PartlyRemoved<V>(s: Sections<V>, t: string, m: string, n: nat): Sections<V> {
    Sections(if n > 0 then RemoveEntry(s.dependencies, t, m) else s.dependencies,
             if n > 1 then RemoveEntry(s.devDependencies, t, m) else s.devDependencies)
  }

  /** `initializeProject`: the default manifest named after the project
      (or, for an empty name, the directory) listing the detected types in
      order, and the default lockfile. */
  function InitializeProject(projectName: string, detected: seq<Detector.Detected>, dirName: string): (r: (Manifest, Lockfile))
    ensures r.0.name == if projectName != "" then projectName else dirName
    ensures |r.0.projectTypes| == |detected|
    ensures forall i :: 0 <= i < |detected| ==> r.0.projectTypes[i] == Detector.Id(detected[i].eco)
    ensures r.0.(name := "", projectTypes := []) == DefaultConfig()
    ensures r.1 == DefaultLock()
  {
    var name := if projectName != "" then projectName else dirName;
    (DefaultConfig().(name := name, projectTypes := seq(|detected|, i requires 0 <= i < |detected| => Detector.Id(detected[i].eco))),
     DefaultLock())
  }

  /** Assigning the same package twice leaves the section as one
      assignment does. */
  lemma PutEntryTwice<V>(b: Option<Bucket<V>>, t: string, m: string, v: V)
    ensures PutEntry(Some(PutEntry(b, t, m, v)), t, m, v) == PutEntry(b, t, m, v)
  {
    var bucket := b.GetOr(Empty());
    var sub0 := Get(bucket, t).GetOr(Empty());
    var sub := Put(sub0, m, v);
    assert Get(PutEntry(b, t, m, v), t) == Some(sub);
    PutPut(sub0, m, v, v);
    PutPut(bucket, t, sub, sub);
  }

  /** `addDependency` overwrites: running it twice with the same arguments
      gives the documents one run gives. */
  lemma AddDependencyIdempotent(c: Manifest, l: Lockfile, moduleName: string, version: string, projectType: string, isDev: bool)
    ensures AddedManifest(AddedManifest(c, moduleName, version, projectType, isDev), moduleName, version, projectType, isDev)
         == AddedManifest(c, moduleName, version, projectType, isDev)
    ensures AddedLock(AddedLock(l, moduleName, version, projectType, isDev), moduleName, version, projectType, isDev)
         == AddedLock(l, moduleName, version, projectType, isDev)
  {
    var k := KindFor(isDev);
    PutEntryTwice(c.deps.Of(k), projectType, moduleName, "^" + version);
    PutEntryTwice(l.deps.Of(k), projectType, moduleName, LockRecord(moduleName, version, projectType));
  }

  /** Removing a package right after assigning it in an existing section
      gives what removing it alone gives, key order included. */
  lemma RemoveEntryAfterPut<V>(bucket: Bucket<V>, t: string, m: string, v: V)
    ensures RemoveEntry(Some(PutEntry(Some(bucket), t, m, v)), t, m) == RemoveEntry(Some(bucket), t, m)
  {
    var sub := Get(bucket, t).GetOr(Empty());
    var added := Put(sub, m, v);
    DeletePut(sub, m, v);
    var rest := Delete(sub, m);
    if rest.keys == [] {
      DeletePut(bucket, t, added);
    } else {
      PutPut(bucket, t, added, rest);
    }
  }

  lemma RemoveAfterAddSections<V>(s: Sections<V>, k: DepKind, t: string, m: string, v: V)
    requires s.Of(k).Some?
    ensures RemoveEverywhere(AddTo(s, k, t, m, v), t, m) == RemoveEverywhere(s, t, m)
  {
    RemoveEntryAfterPut(s.Of(k).value, t, m, v);
    var r := RemoveEverywhere(AddTo(s, k, t, m, v), t, m);
    assert r.Of(k) == RemoveEverywhere(s, t, m).Of(k);
  }

  /** `removeDependency` undoes `addDependency` for a section that exists:
      the documents end as if the package had only been removed. (With the
      section missing, `addDependency` creates it and it stays, empty.) */
  lemma RemoveAfterAdd(c: Manifest, l: Lockfile, moduleName: string, version: string, projectType: string, isDev: bool)
    requires c.deps.Of(KindFor(isDev)).Some? && l.deps.Of(KindFor(isDev)).Some?
    ensures RemovedManifest(AddedManifest(c, moduleName, version, projectType, isDev), moduleName, projectType)
         == RemovedManifest(c, moduleName, projectType)
    ensures RemovedLock(AddedLock(l, moduleName, version, projectType, isDev), moduleName, projectType)
         == RemovedLock(l, moduleName, projectType)
  {
    var k := KindFor(isDev);
    RemoveAfterAddSections(c.deps, k, projectType, moduleName, "^" + version);
    RemoveAfterAddSections(l.deps, k, projectType, moduleName, LockRecord(moduleName, version, projectType));
  }

  /** No ecosystem sub-map for `t` in either section is empty. */
  predicate NoEmptySubmap<V>(s: Sections<V>, t: string) {
    forall k :: s.Of(k).Some? && Get(s.Of(k).value, t).Some? ==> Get(s.Of(k).value, t).value.keys != []
  }

  lemma RemoveEntryAbsent<V>(b: Option<Bucket<V>>, t: string, m: string)
    requires Lookup(b, t, m).None?
    requires b.Some? && Get(b.value, t).Some? ==> Get(b.value, t).value.keys != []
    ensures RemoveEntry(b, t, m) == b
  {
    if b.Some? && Get(b.value, t).Some? {
      PutCurrent(b.value, t);
    }
  }

  /** Removing a package that is not listed changes nothing, provided no
      empty sub-map for that ecosystem is waiting to be pruned. */
  lemma RemoveAbsentUnchanged(c: Manifest, l: Lockfile, moduleName: string, projectType: string)
    requires forall k :: Entry(c.deps, k, projectType, moduleName).None?
    requires forall k :: Entry(l.deps, k, projectType, moduleName).None?
    requires NoEmptySubmap(c.deps, projectType) && NoEmptySubmap(l.deps, projectType)
    ensures RemovedManifest(c, moduleName, projectType) == c
    ensures RemovedLock(l, moduleName, projectType) == l
  {
    assert Entry(c.deps, Regular, projectType, moduleName).None? && Entry(c.deps, Dev, projectType, moduleName).None?;
    assert Entry(l.deps, Regular, projectType, moduleName).None? && Entry(l.deps, Dev, projectType, moduleName).None?;
    RemoveEntryAbsent(c.deps.Of(Regular), projectType, moduleName);
    RemoveEntryAbsent(c.deps.Of(Dev), projectType, moduleName);
    RemoveEntryAbsent(l.deps.Of(Regular), projectType, moduleName);
    RemoveEntryAbsent(l.deps.Of(Dev), projectType, moduleName);
    assert RemoveEverywhere(c.deps, projectType, moduleName).Of(Regular) == c.deps.Of(Regular);
    assert RemoveEverywhere(c.deps, projectType, moduleName).Of(Dev) == c.deps.Of(Dev);
    assert RemoveEverywhere(l.deps, projectType, moduleName).Of(Regular) == l.deps.Of(Regular);
    assert RemoveEverywhere(l.deps, projectType, moduleName).Of(Dev) == l.deps.Of(Dev);
  }

  /** The precondition above is needed: an empty sub-map is truthy, so
      removing a package that is not there still deletes it. */
  lemma AbsentRemovalPrunesEmptySubmap(t: string, m: string)
    ensures var b: Bucket<string> := Put(Empty(), t, Empty());
      Lookup(Some(b), t, m).None? && RemoveEntry(Some(b), t, m) == Some(Empty()) && b != Empty()
  {
    var b: Bucket<string> := Put(Empty(), t, Empty());
    assert b.keys == [t];
    assert Get(b, t) == Some(Empty());
    var rest: Obj<string> := Delete(Empty(), m);
    assert rest.keys == [];
    assert Delete(b, t).keys == [];
    assert Delete(b, t).vals == map[];
  }

  /** After `removeDependency(m, t)` no empty `t` sub-map remains in either
      document, one that was already empty included, and everything outside
      `t` is as it was. */
  lemma RemovePrunesAndFrames(c: Manifest, l: Lockfile, moduleName: string, projectType: string)
    ensures NoEmptySubmap(RemovedManifest(c, moduleName, projectType).deps, projectType)
    ensures forall k, t' :: t' != projectType && c.deps.Of(k).Some? ==>
      RemovedManifest(c, moduleName, projectType).deps.Of(k).Some? &&
      Get(RemovedManifest(c, moduleName, projectType).deps.Of(k).value, t') == Get(c.deps.Of(k).value, t')
    ensures forall k, m' :: m' != moduleName ==>
      Entry(RemovedManifest(c, moduleName, projectType).deps, k, projectType, m') == Entry(c.deps, k, projectType, m')
    ensures NoEmptySubmap(RemovedLock(l, moduleName, projectType).deps, projectType)
    ensures forall k, t' :: t' != projectType && l.deps.Of(k).Some? ==>
      RemovedLock(l, moduleName, projectType).deps.Of(k).Some? &&
      Get(RemovedLock(l, moduleName, projectType).deps.Of(k).value, t') == Get(l.deps.Of(k).value, t')
    ensures forall k, m' :: m' != moduleName ==>
      Entry(RemovedLock(l, moduleName, projectType).deps, k, projectType, m') == Entry(l.deps, k, projectType, m')
  {
  }
}
