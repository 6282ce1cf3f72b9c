/**
 * The environment helpers: the version matcher used to warn about an
 * unexpected Node or Electron runtime, the application state directory
 * and the per-mode store file names, the one-shot logger choice, the
 * memoised version object and the main-database slot.
 */
module Env {
  import opened Wrappers
  import opened Text
  import opened Files

  // ---------------------------------------------------------------------
  // Version matching
  // ---------------------------------------------------------------------

  /** Node versions the build is known to work with. */
  const ExpectedNodeVersions: seq<string> :=
    ["v14.x.x", "v12.20.x", "v12.19.x", "v12.18.x", "v12.17.x", "v12.16.x", "v12.15.x", "v12.14.x"]

  /** Electron versions the build is known to work with. */
  const ExpectedElectronVersions: seq<string> := ["9.3.x"]

  /** One dot-separated component of an expected version: `x` is a wildcard. */
  predicate PartMatches(expected: string, provided: string)
  {
    expected == "x" || expected == provided
  }

  /**
   * One expected version accepts the provided one: both have exactly three
   * dot-separated components and each expected component matches.
   */
  predicate VersionMatches(expected: string, provided: string)
  {
    var v1 := Split(expected, '.');
    var v2 := Split(provided, '.');
    |v1| == 3 && |v2| == 3 &&
    PartMatches(v1[0], v2[0]) && PartMatches(v1[1], v2[1]) && PartMatches(v1[2], v2[2])
  }

  /** Some element of the array accepts the provided version. */
  predicate MatchesSome(versions: seq<string>, provided: string)
  {
    exists i :: 0 <= i < |versions| && VersionMatches(versions[i], provided)
  }

  /**
   * `isMatchingVersion`: true exactly when some expected version accepts the
   * provided one (the opposite of what its doc comment says).
   */
  method IsMatchingVersion(versionsArray: seq<string>, providedVersion: string) returns (ret: bool)
    ensures ret <==> MatchesSome(versionsArray, providedVersion)
    ensures versionsArray == [] ==> !ret
    ensures |Split(providedVersion, '.')| != 3 ==> !ret
  {
    ret := false;
    var v2 := Split(providedVersion, '.');
    var k := 0;
    while k < |versionsArray|
      invariant 0 <= k <= |versionsArray|
      invariant ret <==> exists i :: 0 <= i < k && VersionMatches(versionsArray[i], providedVersion)
    {
      var v1 := Split(versionsArray[k], '.');
      // each `return` inside the forEach callback skips to the next element
      if |v1| == 3 && |v2| == 3 {
        if PartMatches(v1[0], v2[0]) && PartMatches(v1[1], v2[1]) && PartMatches(v1[2], v2[2]) {
          ret := true;
        }
      }
      k := k + 1;
    }
  }

  /**
   * `versionsCheck`: false exactly when the Node version is not accepted, or
   * an Electron version is present and not accepted. The two runtime versions
   * (`process.version`, `process.versions.electron`) are parameters.
   */
  method VersionsCheck(nodeVersion: string, electronVersion: Option<string>) returns (ret: bool)
    ensures !ret <==>
      !MatchesSome(ExpectedNodeVersions, nodeVersion) ||
      (electronVersion.Some? && !MatchesSome(ExpectedElectronVersions, electronVersion.value))
  {
    ret := true;
    var nodeOk := IsMatchingVersion(ExpectedNodeVersions, nodeVersion);
    if !nodeOk {
      ret := false;
    }
    if electronVersion.Some? {
      var electronOk := IsMatchingVersion(ExpectedElectronVersions, electronVersion.value);
      if !electronOk {
        ret := false;
      }
    }
  }

  /** A wildcard patch component accepts any patch level of the named major and minor. */
  lemma NodeFourteenAccepted(minor: string, patch: string)
    requires '.' !in minor && '.' !in patch
    ensures MatchesSome(ExpectedNodeVersions, "v14." + minor + "." + patch)
  {
    var provided := "v14." + minor + "." + patch;
    assert provided == "v14" + "." + minor + "." + patch;
    assert ExpectedNodeVersions[0] == "v14" + "." + "x" + "." + "x";
    SplitThree("v14", minor, patch);
    SplitThree("v14", "x", "x");
    assert VersionMatches(ExpectedNodeVersions[0], provided);
  }

  /** Electron 9.3 at any patch level is accepted; Electron 9.4 is not. */
  lemma ElectronNinePointThree(patch: string)
    requires '.' !in patch
    ensures MatchesSome(ExpectedElectronVersions, "9.3." + patch)
    ensures !MatchesSome(ExpectedElectronVersions, "9.4." + patch)
  {
    assert "9.3." + patch == "9" + "." + "3" + "." + patch;
    assert "9.4." + patch == "9" + "." + "4" + "." + patch;
    assert ExpectedElectronVersions[0] == "9" + "." + "3" + "." + "x";
    SplitThree("9", "3", patch);
    SplitThree("9", "4", patch);
    SplitThree("9", "3", "x");
    assert VersionMatches(ExpectedElectronVersions[0], "9.3." + patch);
    assert "3"[0] != "4"[0];
  }

  /** A version of the form `a.b.c` with separator-free parts splits into exactly those parts. */
  lemma {:induction false} SplitThree(a: string, b: string, c: string)
    requires '.' !in a && '.' !in b && '.' !in c
    ensures Split(a + "." + b + "." + c, '.') == [a, b, c]
  {
    SplitPrefix(a, b + "." + c);
    SplitPrefix(b, c);
    SplitNone(c);
    assert a + "." + b + "." + c == a + ("." + (b + "." + c));
    assert b + "." + c == b + ("." + c);
  }

  lemma {:induction false} SplitNone(s: string)
    requires '.' !in s
    ensures Split(s, '.') == [s]
  {
    if s != [] {
      SplitNone(s[1..]);
      assert [s[0]] + s[1..] == s;
    }
  }

  lemma {:induction false} SplitPrefix(a: string, rest: string)
    requires '.' !in a
    ensures Split(a + ("." + rest), '.') == [a] + Split(rest, '.')
  {
    if a == [] {
      assert a + ("." + rest) == "." + rest;
      assert ("." + rest)[1..] == rest;
    } else {
      SplitPrefix(a[1..], rest);
      var s := a + ("." + rest);
      assert s[0] == a[0] && s[1..] == a[1..] + ("." + rest);
      assert [a[0]] + a[1..] == a;
    }
  }

  /** The components of each expected Node version. */
  lemma ExpectedNodeParts(i: nat)
    requires i < |ExpectedNodeVersions|
    ensures Split(ExpectedNodeVersions[i], '.') ==
      [if i == 0 then "v14" else "v12", ["x", "20", "19", "18", "17", "16", "15", "14"][i], "x"]
  {
    var minors := ["x", "20", "19", "18", "17", "16", "15", "14"];
    var major := if i == 0 then "v14" else "v12";
    assert ExpectedNodeVersions[i] == major + "." + minors[i] + "." + "x";
    SplitThree(major, minors[i], "x");
  }

  /** No Node 12 release before 12.14 is among the expected versions. */
  lemma NodeTwelveThirteenRejected(patch: string)
    requires '.' !in patch
    ensures !MatchesSome(ExpectedNodeVersions, "v12.13." + patch)
  {
    var provided := "v12.13." + patch;
    assert provided == "v12" + "." + "13" + "." + patch;
    SplitThree("v12", "13", patch);
    forall i | 0 <= i < |ExpectedNodeVersions|
      ensures !VersionMatches(ExpectedNodeVersions[i], provided)
    {
      ExpectedNodeParts(i);
      ExpectedNodePartsDiffer(i);
    }
  }

  /** Each expected Node version differs from 12.13 in its major or its minor. */
  lemma ExpectedNodePartsDiffer(i: nat)
    requires i < |ExpectedNodeVersions|
    ensures var parts := [if i == 0 then "v14" else "v12", ["x", "20", "19", "18", "17", "16", "15", "14"][i], "x"];
      !PartMatches(parts[0], "v12") || !PartMatches(parts[1], "13")
  {
    var minors := ["x", "20", "19", "18", "17", "16", "15", "14"];
    if i == 0 {
      assert "v14"[2] != "v12"[2];
    } else {
      assert minors[i][1] != "13"[1];
    }
  }

  // ---------------------------------------------------------------------
  // State directory, store files, version object, logger, main database
  // ---------------------------------------------------------------------

  /** Store file names asked for by each startup mode. */
  const DefaultStoreName: string := "zap"
  const ConvertStoreName: string := "convert"
  const AnalysisStoreName: string := "analysis"
  const SelfCheckStoreName: string := "self-check"
  const GenerateStoreName: string := "generate"

  /** `setAppDirectory`'s reading of its argument: a leading `~/` means the home directory. */
  function ExpandHome(directoryPath: string, homedir: string): string
  {
    if StartsWith(directoryPath, "~/") then Join(homedir, directoryPath[2..]) else directoryPath
  }

  /** The directory `appDirectory()` answers given the memoised value. */
  function AppDirFor(stateDirectory: Option<string>, homedir: string): string
  {
    if stateDirectory.Some? then stateDirectory.value else Join(homedir, ".zap")
  }

  /** The file system after `appDirectory()`: the default directory is created the first time. */
  function NodesAfterAppDirectory(stateDirectory: Option<string>, homedir: string, nodes: map<string, Node>): map<string, Node>
  {
    if stateDirectory.None? then EnsureDir(nodes, AppDirFor(stateDirectory, homedir)) else nodes
  }

  /** `sqliteFile(name)` for a given state directory. */
  function SqlitePath(dir: string, name: string): string
  {
    Join(dir, name + ".sqlite")
  }

  /** Distinct store names give distinct store files in the same directory. */
  lemma SqlitePathInjective(dir: string, a: string, b: string)
    requires SqlitePath(dir, a) == SqlitePath(dir, b)
    ensures a == b
  {
    var pa, pb := SqlitePath(dir, a), SqlitePath(dir, b);
    assert |a| == |b|;
    assert a == pa[|dir| + 1..|dir| + 1 + |a|];
    assert b == pb[|dir| + 1..|dir| + 1 + |b|];
  }

  /** The five startup modes never share a store file. */
  lemma StoreFilesDistinct(dir: string)
    ensures var names := [DefaultStoreName, ConvertStoreName, AnalysisStoreName, SelfCheckStoreName, GenerateStoreName];
      forall i, j :: 0 <= i < j < |names| ==> SqlitePath(dir, names[i]) != SqlitePath(dir, names[j])
  {
    var names := [DefaultStoreName, ConvertStoreName, AnalysisStoreName, SelfCheckStoreName, GenerateStoreName];
    forall i, j | 0 <= i < j < |names|
      ensures SqlitePath(dir, names[i]) != SqlitePath(dir, names[j])
    {
      if SqlitePath(dir, names[i]) == SqlitePath(dir, names[j]) {
        SqlitePathInjective(dir, names[i], names[j]);
      }
    }
  }

  /** A store file is never the state directory itself. */
  lemma SqlitePathIsNotDir(dir: string, name: string)
    ensures SqlitePath(dir, name) != dir
  {
    assert |SqlitePath(dir, name)| > |dir|;
  }

  /** The `version` and `featureLevel` fields of package.json. */
  datatype PackageInfo = PackageInfo(version: string, featureLevel: int)

  /** The contents of .version.json. */
  datatype BuildInfo = BuildInfo(hash: string, timestamp: int, date: string)

  /** The version object; absent build fields are `undefined`. */
  datatype VersionObject = VersionObject(
    version: string, featureLevel: int,
    hash: Option<string>, timestamp: Option<int>, date: Option<string>)

  /**
   * The version object built from the two files (None when a file cannot be
   * read): an unreadable package.json gives version '0.0.0' and feature level 0.
   */
  function ComputeVersion(packageJson: Option<PackageInfo>, versionJson: Option<BuildInfo>): VersionObject
  {
    VersionObject(
      if packageJson.Some? then packageJson.value.version else "0.0.0",
      if packageJson.Some? then packageJson.value.featureLevel else 0,
      if versionJson.Some? then Some(versionJson.value.hash) else None,
      if versionJson.Some? then Some(versionJson.value.timestamp) else None,
      if versionJson.Some? then Some(versionJson.value.date) else None)
  }

  /** What `zapVersion()` answers given the memoised object. */
  function VersionAfter(memo: Option<VersionObject>, packageJson: Option<PackageInfo>, versionJson: Option<BuildInfo>): VersionObject
  {
    if memo.Some? then memo.value else ComputeVersion(packageJson, versionJson)
  }

  /** A template literal's rendering of a possibly undefined string. */
  function Show(s: Option<string>): string
  {
    if s.Some? then s.value else "undefined"
  }

  /** `zapVersionAsString()` for a given version object. */
  function VersionString(v: VersionObject): string
  {
    "ver. " + v.version + ", featureLevel " + IntToString(v.featureLevel) +
    ", commit: " + Show(v.hash) + " from " + Show(v.date)
  }

  /** Without package.json the version line reports the fallback version. */
  lemma VersionStringFallback(versionJson: Option<BuildInfo>)
    ensures StartsWith(VersionString(ComputeVersion(None, versionJson)), "ver. 0.0.0, featureLevel 0")
  {
    var s := VersionString(ComputeVersion(None, versionJson));
    assert IntToString(0) == "0";
    assert s[..|"ver. 0.0.0, featureLevel 0"|] == "ver. 0.0.0, featureLevel 0";
  }

  /** Where log output goes: pino's default, stdout, or a log file. */
  datatype Logger = DefaultLogger | StdoutLogger | FileLogger(path: string)

  /** An opened store as the database layer hands it out. */
  datatype DbHandle = DbHandle(id: nat)

  /**
   * The module-level state of the environment helpers. The home directory and
   * the contents of the two version files are fixed inputs.
   */
  class Environment {
    const fs: FileSystem
    const homedir: string
    const packageJson: Option<PackageInfo>
    const versionJson: Option<BuildInfo>

    var applicationStateDirectory: Option<string>
    var explicitLoggerSet: bool
    var logger: Logger
    var versionObject: Option<VersionObject>
    var dbInstance: Option<DbHandle>

    /** The state at module load. */
    constructor (fs: FileSystem, homedir: string, packageJson: Option<PackageInfo>, versionJson: Option<BuildInfo>)
      ensures this.fs == fs && this.homedir == homedir
      ensures this.packageJson == packageJson && this.versionJson == versionJson
      ensures applicationStateDirectory == None && !explicitLoggerSet && logger == DefaultLogger
      ensures versionObject == None && dbInstance == None
    {
      this.fs := fs;
      this.homedir := homedir;
      this.packageJson := packageJson;
      this.versionJson := versionJson;
      applicationStateDirectory := None;
      explicitLoggerSet := false;
      logger := DefaultLogger;
      versionObject := None;
      dbInstance := None;
    }

    /** `setAppDirectory`: expand `~/`, create the directory if missing, remember it. */
    method SetAppDirectory(directoryPath: string)
      modifies this`applicationStateDirectory, fs
      ensures applicationStateDirectory == Some(ExpandHome(directoryPath, homedir))
      ensures fs.nodes == EnsureDir(old(fs.nodes), ExpandHome(directoryPath, homedir))
    {
      var appDir := directoryPath;
      if StartsWith(directoryPath, "~/") {
        appDir := Join(homedir, directoryPath[2..]);
      } else {
        appDir := directoryPath;
      }
      if !fs.Exists(appDir) {
        fs.MakeDirectory(appDir);
      }
      applicationStateDirectory := Some(appDir);
    }

    /** `appDirectory`: the remembered directory, else `~/.zap`, created and remembered. */
    method AppDirectory() returns (dir: string)
      modifies this`applicationStateDirectory, fs
      ensures dir == AppDirFor(old(applicationStateDirectory), homedir)
      ensures applicationStateDirectory == Some(dir)
      ensures fs.nodes == NodesAfterAppDirectory(old(applicationStateDirectory), homedir, old(fs.nodes))
    {
      if applicationStateDirectory.None? {
        var appDir := Join(homedir, ".zap");
        if !fs.Exists(appDir) {
          fs.MakeDirectory(appDir);
        }
        applicationStateDirectory := Some(appDir);
        return appDir;
      }
      return applicationStateDirectory.value;
    }

    /** `sqliteFile(filename)`: the store file of that name inside the state directory. */
    method SqliteFile(filename: string) returns (file: string)
      modifies this`applicationStateDirectory, fs
      ensures file == SqlitePath(AppDirFor(old(applicationStateDirectory), homedir), filename)
      ensures applicationStateDirectory == Some(AppDirFor(old(applicationStateDirectory), homedir))
      ensures fs.nodes == NodesAfterAppDirectory(old(applicationStateDirectory), homedir, old(fs.nodes))
    {
      var dir := AppDirectory();
      file := Join(dir, filename + ".sqlite");
    }

    /** `zapVersion`: computed on the first call, then the same object every time. */
    method ZapVersion() returns (vo: VersionObject)
      modifies this`versionObject
      ensures vo == VersionAfter(old(versionObject), packageJson, versionJson)
      ensures versionObject == Some(vo)
    {
      if versionObject.None? {
        versionObject := Some(ComputeVersion(packageJson, versionJson));
      }
      vo := versionObject.value;
    }

    /** `zapVersionAsString`: the one-line rendering of `zapVersion()`. */
    method ZapVersionAsString() returns (s: string)
      modifies this`versionObject
      ensures versionObject == Some(VersionAfter(old(versionObject), packageJson, versionJson))
      ensures s == VersionString(versionObject.value)
    {
      var vo := ZapVersion();
      s := VersionString(vo);
    }

    /** `logInitStdout`: only the first logger initialisation takes effect. */
    method LogInitStdout()
      modifies this`explicitLoggerSet, this`logger
      ensures explicitLoggerSet
      ensures logger == if old(explicitLoggerSet) then old(logger) else StdoutLogger
    {
      if !explicitLoggerSet {
        logger := StdoutLogger;
        explicitLoggerSet := true;
      }
    }

    /**
     * `logInitLogFile`: on the first logger initialisation only, log to `zap.log`
     * in the state directory (which resolves, and may create, that directory).
     */
    method LogInitLogFile()
      modifies this`explicitLoggerSet, this`logger, this`applicationStateDirectory, fs
      ensures explicitLoggerSet
      ensures old(explicitLoggerSet) ==>
        logger == old(logger) && applicationStateDirectory == old(applicationStateDirectory) &&
        fs.nodes == old(fs.nodes)
      ensures !old(explicitLoggerSet) ==>
        var dir := AppDirFor(old(applicationStateDirectory), homedir);
        logger == FileLogger(Join(dir, "zap.log")) && applicationStateDirectory == Some(dir) &&
        fs.nodes == NodesAfterAppDirectory(old(applicationStateDirectory), homedir, old(fs.nodes))
    {
      if !explicitLoggerSet {
        var dir := AppDirectory();
        logger := FileLogger(Join(dir, "zap.log"));
        explicitLoggerSet := true;
      }
    }

    /** `mainDatabase()` */
    function MainDatabase(): Option<DbHandle>
      reads this
    {
      dbInstance
    }

    /** `resolveMainDatabase(db)`: remember the handle and pass it on. */
    method ResolveMainDatabase(db: DbHandle) returns (r: DbHandle)
      modifies this`dbInstance
      ensures r == db && MainDatabase() == Some(db)
    {
      dbInstance := Some(db);
      r := db;
    }
  }

  /**
   * Once set, the state directory is what every later `appDirectory()` and
   * `sqliteFile()` call builds on, and no further directory is created.
   */
  method StateDirectoryIsSticky(env: Environment, directoryPath: string)
    returns (first: string, second: string, store: string)
    modifies env`applicationStateDirectory, env.fs
    ensures var dir := ExpandHome(directoryPath, env.homedir);
      first == dir && second == dir && store == Join(dir, "generate.sqlite") &&
      env.applicationStateDirectory == Some(dir) && env.fs.nodes == EnsureDir(old(env.fs.nodes), dir)
    ensures env.logger == old(env.logger) && env.dbInstance == old(env.dbInstance)
  {
    env.SetAppDirectory(directoryPath);
    first := env.AppDirectory();
    second := env.AppDirectory();
    store := env.SqliteFile(GenerateStoreName);
  }

  /** `zapVersion()` computes the version object once; later calls and the version string reuse it. */
  method VersionIsMemoised(env: Environment) returns (first: VersionObject, second: VersionObject, line: string)
    modifies env`versionObject
    ensures first == second && line == VersionString(first)
    ensures old(env.versionObject).None? ==> first == ComputeVersion(env.packageJson, env.versionJson)
    ensures env.logger == old(env.logger) && env.dbInstance == old(env.dbInstance)
    ensures env.applicationStateDirectory == old(env.applicationStateDirectory)
  {
    first := env.ZapVersion();
    second := env.ZapVersion();
    line := env.ZapVersionAsString();
  }

  /** `mainDatabase()` answers the handle most recently passed to `resolveMainDatabase`. */
  method MainDatabaseIsLastResolved(env: Environment, first: DbHandle, second: DbHandle)
    returns (before: Option<DbHandle>, between: Option<DbHandle>, after: Option<DbHandle>)
    modifies env`dbInstance
    ensures before == old(env.dbInstance) && between == Some(first) && after == Some(second)
    ensures env.MainDatabase() == Some(second)
  {
    before := env.MainDatabase();
    var _ := env.ResolveMainDatabase(first);
    between := env.MainDatabase();
    var _ := env.ResolveMainDatabase(second);
    after := env.MainDatabase();
  }

  /** The first explicit logger choice wins: a later log-file request changes nothing. */
  method LoggerIsSticky(env: Environment) returns (before: Logger, after: Logger)
    modifies env`explicitLoggerSet, env`logger, env`applicationStateDirectory, env.fs
    ensures before == after && after == env.logger
    ensures !old(env.explicitLoggerSet) ==> after == StdoutLogger
    ensures env.applicationStateDirectory == old(env.applicationStateDirectory) && env.fs.nodes == old(env.fs.nodes)
  {
    env.LogInitStdout();
    before := env.logger;
    env.LogInitLogFile();
    after := env.logger;
  }
}
