/** Project detection (src/detector.js): the fixed table of ecosystems and
    their marker files, the scan of a project root, the primary type and the
    polyglot test, and the install/uninstall command strings. The project
    root is the set of names present in it. */
module Detector {
  import opened Wrappers

  datatype Ecosystem = Node | Python | Rust | Go

  /** A row of the `PROJECT_TYPES` table. */
  datatype ProjectType = ProjectType(
    files: seq<string>,
    installCommand: string,
    devCommand: string,
    buildCommand: string)

  /** The table's declaration order, which is the order of detection. */
  const Ecosystems: seq<Ecosystem> := [Node, Python, Rust, Go]

  /** The table key of an ecosystem. */
  function Id(e: Ecosystem): string {
    match e
    case Node => "node"
    case Python => "python"
    case Rust => "rust"
    case Go => "go"
  }

  /** The table row for a key, if the key is one of the four. */
  function ParseEcosystem(t: string): (r: Option<Ecosystem>)
    ensures r.Some? <==> t in {"node", "python", "rust", "go"}
    ensures r.Some? ==> Id(r.value) == t
  {
    if t == "node" then Some(Node)
    else if t == "python" then Some(Python)
    else if t == "rust" then Some(Rust)
    else if t == "go" then Some(Go)
    else None
  }

  lemma ParseId(e: Ecosystem)
    ensures ParseEcosystem(Id(e)) == Some(e)
  {
  }

  /** The position of an ecosystem in the declaration order. */
  function Rank(e: Ecosystem): (r: nat)
    ensures r < |Ecosystems| && Ecosystems[r] == e
  {
    match e
    case Node => 0
    case Python => 1
    case Rust => 2
    case Go => 3
  }

  /** `PROJECT_TYPES`. */
  function Config(e: Ecosystem): ProjectType {
    match e
    case Node => ProjectType(["package.json"], "npm install", "npm run dev", "npm run build")
    case Python => ProjectType(["requirements.txt", "pyproject.toml", "setup.py"],
                               "pip install", "python app.py", "python setup.py build")
    case Rust => ProjectType(["Cargo.toml"], "cargo add", "cargo run", "cargo build")
    case Go => ProjectType(["go.mod"], "go get", "go run .", "go build")
  }

  function Markers(e: Ecosystem): seq<string> {
    Config(e).files
  }

  /** An element of the list `detectProjectTypes` returns; its `config` is
      `Config(eco)`. */
  datatype Detected = Detected(eco: Ecosystem, detectedFile: string)

  /** The first of `files` present in `dir`. */
  function FirstPresent(files: seq<string>, dir: set<string>): (r: Option<string>)
    ensures r.None? <==> forall i :: 0 <= i < |files| ==> files[i] !in dir
    ensures r.Some? ==> r.value in files && r.value in dir
    ensures r.Some? ==> exists i :: 0 <= i < |files| && files[i] == r.value && r.value in dir &&
                          forall j :: 0 <= j < i ==> files[j] !in dir
  {
    if files == [] then None
    else if files[0] in dir then Some(files[0])
    else
      var r := FirstPresent(files[1..], dir);
      assert r.Some? ==> exists i :: 1 <= i < |files| && files[i] == r.value &&
                           forall j :: 0 <= j < i ==> files[j] !in dir by {
        if r.Some? {
          var i :| 0 <= i < |files[1..]| && files[1..][i] == r.value && r.value in dir &&
                   forall j :: 0 <= j < i ==> files[1..][j] !in dir;
          assert files[i + 1] == r.value;
          assert forall j :: 0 <= j < i + 1 ==> files[j] !in dir by {
            forall j | 0 <= j < i + 1 ensures files[j] !in dir {
              if j > 0 { assert files[j] == files[1..][j - 1]; }
            }
          }
        }
      }
      r
  }

  /** The `for ... of` over candidate files that stops at the first one that
      exists (the inner loop of `detectProjectTypes`, and the search for a
      Python entry file in the dev command). */
  method FindFirstPresent(files: seq<string>, dir: set<string>) returns (r: Option<string>)
    ensures r == FirstPresent(files, dir)
  {
    var i := 0;
    while i < |files|
      invariant 0 <= i <= |files|
      invariant FirstPresent(files[i..], dir) == FirstPresent(files, dir)
    {
      if files[i] in dir {
        return Some(files[i]);
      }
      assert files[i..][1..] == files[i + 1..];
      i := i + 1;
    }
    return None;
  }

  /** The entry one table row contributes: tagged with its first present
      marker file, or nothing. */
  function DetectOne(e: Ecosystem, dir: set<string>): (r: seq<Detected>)
    ensures |r| <= 1
  {
    match FirstPresent(Markers(e), dir)
    case Some(f) => [Detected(e, f)]
    case None => []
  }

  /** Detection over a list of ecosystems, in that list's order. */
  function DetectIn(es: seq<Ecosystem>, dir: set<string>): seq<Detected> {
    if es == [] then [] else DetectIn(es[..|es| - 1], dir) + DetectOne(es[|es| - 1], dir)
  }

  /** What `detectProjectTypes` returns for a project root. */
  function Detect(dir: set<string>): seq<Detected> {
    DetectIn(Ecosystems, dir)
  }

  /** `detectProjectTypes`: the outer loop over the table rows, in order,
      keeping each row whose marker search finds a file. */
  method DetectProjectTypes(dir: set<string>) returns (detected: seq<Detected>)
    ensures detected == Detect(dir)
  {
    detected := DetectRows(Ecosystems, dir);
  }

  method DetectRows(es: seq<Ecosystem>, dir: set<string>) returns (detected: seq<Detected>)
    ensures detected == DetectIn(es, dir)
  {
    detected := [];
    var i := 0;
    while i < |es|
      invariant 0 <= i <= |es|
      invariant detected == DetectIn(es[..i], dir)
    {
      var e := es[i];
      assert es[..i + 1][..i] == es[..i];
      var f := FindFirstPresent(Markers(e), dir);
      if f.Some? {
        detected := detected + [Detected(e, f.value)];
      }
      i := i + 1;
    }
    assert es[..i] == es;
  }

  lemma {:induction false} DetectInMembership(es: seq<Ecosystem>, dir: set<string>, d: Detected)
    ensures d in DetectIn(es, dir) <==> d.eco in es && FirstPresent(Markers(d.eco), dir) == Some(d.detectedFile)
  {
    if es != [] {
      var front := es[..|es| - 1];
      var last := es[|es| - 1];
      DetectInMembership(front, dir, d);
      assert es == front + [last];
      assert d.eco in es <==> d.eco in front || d.eco == last;
      assert d in DetectIn(es, dir) <==> d in DetectIn(front, dir) || d in DetectOne(last, dir);
      DetectOneMembership(last, dir, d);
    }
  }

  lemma DetectOneMembership(e: Ecosystem, dir: set<string>, d: Detected)
    ensures d in DetectOne(e, dir) <==> d.eco == e && FirstPresent(Markers(e), dir) == Some(d.detectedFile)
  {
  }

  /** An ecosystem is detected, tagged with `f`, exactly when `f` is the
      first of its marker files present in the project root. */
  lemma DetectMembership(dir: set<string>, d: Detected)
    ensures d in Detect(dir) <==> FirstPresent(Markers(d.eco), dir) == Some(d.detectedFile)
  {
    DetectInMembership(Ecosystems, dir, d);
  }

  /** An ecosystem is detected if and only if one of its marker files is in
      the project root. */
  lemma DetectedIffMarkerPresent(dir: set<string>, e: Ecosystem)
    ensures (exists i :: 0 <= i < |Detect(dir)| && Detect(dir)[i].eco == e) <==>
            (exists f :: f in Markers(e) && f in dir)
  {
    var d := Detect(dir);
    if exists i :: 0 <= i < |d| && d[i].eco == e {
      var i :| 0 <= i < |d| && d[i].eco == e;
      DetectMembership(dir, d[i]);
    }
    if exists f :: f in Markers(e) && f in dir {
      var r := FirstPresent(Markers(e), dir);
      assert r.Some?;
      DetectMembership(dir, Detected(e, r.value));
      var i :| 0 <= i < |d| && d[i] == Detected(e, r.value);
    }
  }

  lemma {:induction false} DetectInOrdered(es: seq<Ecosystem>, dir: set<string>)
    requires forall i, j :: 0 <= i < j < |es| ==> Rank(es[i]) < Rank(es[j])
    ensures forall i, j :: 0 <= i < j < |DetectIn(es, dir)| ==>
              Rank(DetectIn(es, dir)[i].eco) < Rank(DetectIn(es, dir)[j].eco)
  {
    if es != [] {
      var front := es[..|es| - 1];
      var last := es[|es| - 1];
      DetectInOrdered(front, dir);
      var d := DetectIn(front, dir);
      forall k | 0 <= k < |d| ensures Rank(d[k].eco) < Rank(last) {
        DetectInMembership(front, dir, d[k]);
        var i :| 0 <= i < |front| && front[i] == d[k].eco;
      }
    }
  }

  /** Detected ecosystems come in declaration order (node, python, rust,
      go), so each appears at most once. */
  lemma DetectOrdered(dir: set<string>)
    ensures var d := Detect(dir);
      forall i, j :: 0 <= i < j < |d| ==> Rank(d[i].eco) < Rank(d[j].eco) && d[i].eco != d[j].eco
  {
    forall i | 0 <= i < |Ecosystems| ensures Rank(Ecosystems[i]) == i { }
    DetectInOrdered(Ecosystems, dir);
    var d := DetectIn(Ecosystems, dir);
    assert d == Detect(dir);
    forall i, j | 0 <= i < j < |d| ensures Rank(d[i].eco) < Rank(d[j].eco) {
    }
  }

  /** Every marker file of every ecosystem. */
  function AllMarkers(): set<string> {
    set f | f in Markers(Node) + Markers(Python) + Markers(Rust) + Markers(Go)
  }

  /** A root holding exactly one known marker file is detected as that file's
      ecosystem alone. */
  lemma SingleMarker(dir: set<string>, e: Ecosystem, f: string)
    requires f in Markers(e)
    requires dir * AllMarkers() == {f}
    ensures Detect(dir) == [Detected(e, f)]
  {
    assert f in dir by { assert f in dir * AllMarkers(); }
    forall e' ensures DetectOne(e', dir) == if e' == e then [Detected(e, f)] else [] {
      var r := FirstPresent(Markers(e'), dir);
      if r.Some? {
        assert r.value in AllMarkers() by {
          assert r.value in Markers(Node) + Markers(Python) + Markers(Rust) + Markers(Go) by {
            match e' { case Node => case Python => case Rust => case Go => }
          }
        }
        assert r.value in dir * AllMarkers();
        MarkersDisjoint(e, e', f);
      }
      if e' == e {
        var i :| 0 <= i < |Markers(e)| && Markers(e)[i] == f;
      }
    }
    DetectUnfolded(dir);
  }

  /** Detection written out along the table. */
  lemma DetectUnfolded(dir: set<string>)
    ensures Detect(dir) == DetectOne(Node, dir) + DetectOne(Python, dir) + DetectOne(Rust, dir) + DetectOne(Go, dir)
  {
    assert Ecosystems[..3] == [Node, Python, Rust];
    assert [Node, Python, Rust][..2] == [Node, Python];
    assert [Node, Python][..1] == [Node];
    assert [Node][..0] == [];
    assert DetectIn([Node], dir) == DetectOne(Node, dir);
    assert DetectIn([Node, Python], dir) == DetectOne(Node, dir) + DetectOne(Python, dir);
    assert DetectIn([Node, Python, Rust], dir) == DetectOne(Node, dir) + DetectOne(Python, dir) + DetectOne(Rust, dir);
  }

  /** No file is a marker of two ecosystems. */
  lemma MarkersDisjoint(e1: Ecosystem, e2: Ecosystem, f: string)
    requires f in Markers(e1) && f in Markers(e2)
    ensures e1 == e2
  {
  }

  /** `getPrimaryProjectType`: the first detected ecosystem, if any. */
  function PrimaryProjectType(dir: set<string>): Option<Detected> {
    var d := Detect(dir);
    if |d| > 0 then Some(d[0]) else None
  }

  /** The primary type is absent exactly when no marker file is present. */
  lemma PrimaryAbsentIffNoMarker(dir: set<string>)
    ensures PrimaryProjectType(dir).None? <==>
            forall e :: FirstPresent(Markers(e), dir).None?
  {
    if PrimaryProjectType(dir).Some? {
      DetectMembership(dir, Detect(dir)[0]);
    } else {
      forall e ensures FirstPresent(Markers(e), dir).None? {
        DetectOneEmpty(e, dir);
      }
    }
  }

  lemma DetectOneEmpty(e: Ecosystem, dir: set<string>)
    requires Detect(dir) == []
    ensures FirstPresent(Markers(e), dir).None?
  {
    if FirstPresent(Markers(e), dir).Some? {
      DetectMembership(dir, Detected(e, FirstPresent(Markers(e), dir).value));
    }
  }

  /** The primary type is the earliest ecosystem in declaration order that
      has a marker file present, tagged with its first present marker. */
  lemma PrimaryIsEarliest(dir: set<string>)
    requires PrimaryProjectType(dir).Some?
    ensures var p := PrimaryProjectType(dir).value;
            FirstPresent(Markers(p.eco), dir) == Some(p.detectedFile) &&
            forall e :: Rank(e) < Rank(p.eco) ==> FirstPresent(Markers(e), dir).None?
  {
    var d := Detect(dir);
    DetectMembership(dir, d[0]);
    DetectOrdered(dir);
    forall e | FirstPresent(Markers(e), dir).Some? ensures Rank(d[0].eco) <= Rank(e) {
      var x := Detected(e, FirstPresent(Markers(e), dir).value);
      DetectMembership(dir, x);
      var i :| 0 <= i < |d| && d[i] == x;
    }
  }

  /** `isPolyglotProject`. */
  function IsPolyglotProject(dir: set<string>): bool {
    |Detect(dir)| > 1
  }

  /** A project is polyglot exactly when two different ecosystems each have a
      marker file present. */
  lemma PolyglotIffTwoEcosystems(dir: set<string>)
    ensures IsPolyglotProject(dir) <==>
            exists e1, e2 :: e1 != e2 && FirstPresent(Markers(e1), dir).Some? &&
                             FirstPresent(Markers(e2), dir).Some?
  {
    if |Detect(dir)| > 1 {
      PolyglotHasTwo(dir);
    }
    forall e1, e2 | e1 != e2 && FirstPresent(Markers(e1), dir).Some? && FirstPresent(Markers(e2), dir).Some?
      ensures |Detect(dir)| > 1
    {
      TwoArePolyglot(dir, e1, e2);
    }
  }

  lemma PolyglotHasTwo(dir: set<string>)
    requires |Detect(dir)| > 1
    ensures exists e1, e2 :: e1 != e2 && FirstPresent(Markers(e1), dir).Some? &&
                             FirstPresent(Markers(e2), dir).Some?
  {
    var d := Detect(dir);
    DetectOrdered(dir);
    DetectMembership(dir, d[0]);
    DetectMembership(dir, d[1]);
    assert d[0].eco != d[1].eco;
  }

  lemma TwoArePolyglot(dir: set<string>, e1: Ecosystem, e2: Ecosystem)
    requires e1 != e2 && FirstPresent(Markers(e1), dir).Some? && FirstPresent(Markers(e2), dir).Some?
    ensures |Detect(dir)| > 1
  {
    var d := Detect(dir);
    var x1 := Detected(e1, FirstPresent(Markers(e1), dir).value);
    var x2 := Detected(e2, FirstPresent(Markers(e2), dir).value);
    DetectMembership(dir, x1);
    DetectMembership(dir, x2);
    var i :| 0 <= i < |d| && d[i] == x1;
    var j :| 0 <= j < |d| && d[j] == x2;
    assert i != j;
  }

  /** `requirements.txt` is listed before `pyproject.toml` and `setup.py`,
      so it is the one reported when it is present. */
  lemma RequirementsWins(dir: set<string>)
    requires "requirements.txt" in dir
    ensures Detected(Python, "requirements.txt") in Detect(dir)
  {
    DetectMembership(dir, Detected(Python, "requirements.txt"));
  }

  datatype CommandError = UnknownProjectType(projectType: string)
                        | UninstallUnsupported(projectType: string)

  /** `getInstallCommand`. */
  function GetInstallCommand(projectType: string, moduleName: string): (r: Result<string, CommandError>)
    ensures r.Err? <==> ParseEcosystem(projectType).None?
    ensures r.Err? ==> r.error == UnknownProjectType(projectType)
    ensures r.Ok? ==> r.value == Config(ParseEcosystem(projectType).value).installCommand + " " + moduleName
  {
    match ParseEcosystem(projectType)
    case None => Err(UnknownProjectType(projectType))
    case Some(Node) => Ok("npm install " + moduleName)
    case Some(Python) => Ok("pip install " + moduleName)
    case Some(Rust) => Ok("cargo add " + moduleName)
    case Some(Go) => Ok("go get " + moduleName)
  }

  /** `getUninstallCommand`. */
  function GetUninstallCommand(projectType: string, moduleName: string): (r: Result<string, CommandError>)
    ensures r.Err? <==> ParseEcosystem(projectType).None?
    ensures r.Err? ==> r.error == UninstallUnsupported(projectType)
    ensures projectType == "go" ==> r == Ok("go mod tidy")
    ensures projectType == "python" ==> r == Ok("pip uninstall " + moduleName + " -y")
    ensures projectType in {"node", "rust"} ==>
      r.Ok? && r.value == (if projectType == "node" then "npm" else "cargo") + " " +
                          (if projectType == "node" then "uninstall" else "remove") + " " + moduleName
  {
    match ParseEcosystem(projectType)
    case None => Err(UninstallUnsupported(projectType))
    case Some(Node) => Ok("npm uninstall " + moduleName)
    case Some(Python) => Ok("pip uninstall " + moduleName + " -y")
    case Some(Rust) => Ok("cargo remove " + moduleName)
    case Some(Go) => Ok("go mod tidy")
  }
}
