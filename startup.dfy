/**
 * The headless startup modes: command dispatch and argument validation,
 * resolution of the generation input, and the stage order of self-check,
 * analyze, convert and generate, with the failure policy of each stage.
 *
 * The store, the metadata and template loaders, import/export and the
 * generator are collaborators whose answers are fixed inputs
 * (`Collaborators`); every call to one of them appends an `Event` to the
 * pipeline's trace, so the trace records the order in which stages ran.
 */
module Startup {
  import opened Wrappers
  import opened Text
  import opened Files
  import opened Env

  type SessionId = nat
  type PackageId = nat

  /** The `options` argument of the start functions. */
  datatype Options = Options(log: bool, quit: bool, cleanDb: bool)

  /** The options every mode gets when started from the command line. */
  const DefaultOptions: Options := Options(true, true, true)

  /** What a run can throw. */
  datatype Error =
    | NoZapFilesInDirectory(dir: string)
    | MultipleZapFilesInDirectory(dir: string)
    | FileNotFound(path: string)
    | StoreInitFailed
    | MetadataLoadFailed
    | TemplateLoadFailed(message: string)
    | ImportFailed(path: string)
    | GenerationFailed
    | NoZapFileGiven
    | NoOutputGiven

  /**
   * The value thrown for each error. A collaborator's rejection carries its
   * own value, which the model does not know; the last three strings only
   * name it.
   */
  function Message(e: Error): string
  {
    match e
    case NoZapFilesInDirectory(dir) => "\U{1F44E} no zap files found in directory: " + dir
    case MultipleZapFilesInDirectory(dir) =>
      "\U{1F44E} multiple zap files found in directory, only one is allowed: " + dir
    case FileNotFound(path) => "\U{1F44E} file not found: " + path
    case TemplateLoadFailed(message) => message
    case GenerationFailed => "Generation failed."
    case NoZapFileGiven => "You need to specify at least one zap file."
    case NoOutputGiven => "You need to specify output file."
    case StoreInitFailed => "store initialisation rejected"
    case MetadataLoadFailed => "metadata load rejected"
    case ImportFailed(path) => "import rejected: " + path
  }

  /** The warning printed when generate is given more than one input. */
  const MultipleFilesWarning: string := "\U{26A0}\U{FE0F}  Multiple files passed. Using only first one."

  /** One observable step of a run, in the order it happens. */
  datatype Event =
    | Warning(message: string)
    | BackedUp(path: string)
    | Unlinked(path: string)
    | SchemaInitialized(dbFile: string, storeExisted: bool)
    | ZclLoaded(propertiesFile: string)
    | TemplatesLoaded(templateFile: string)
    | Imported(path: string)
    | Reported(session: SessionId)
    | Exported(session: SessionId, output: string)
    | BlankSessionCreated(session: SessionId)
    | SessionPackagesInitialized(session: SessionId)
    | Generated(session: SessionId, packageId: PackageId, outputDir: Option<string>)
    | Quit
    | Exit(code: int)

  /**
   * The answers of the collaborators: whether schema initialisation and the
   * metadata load resolve, the template loader's `error` and `packageId`, the
   * session an import of each file yields (a file missing from `imports` is
   * rejected), the blank session, and the generator's `hasErrors`.
   * `templateError` is `Some(e)` only for a truthy `ctx.error`: an empty
   * string is falsy in `if (ctx.error)`, so it is written `None`.
   */
  datatype Collaborators = Collaborators(
    storeInitOk: bool,
    zclLoadOk: bool,
    templateError: Option<string>,
    templatePackage: PackageId,
    imports: map<string, SessionId>,
    blankSession: SessionId,
    generationHasErrors: bool)

  // ---------------------------------------------------------------------
  // Input resolution for generate
  // ---------------------------------------------------------------------

  /**
   * Every resolution error's message names the first input, and the three
   * messages for one input differ from one another.
   */
  lemma ResolutionMessageNamesInput(nodes: map<string, Node>, zapFiles: Option<seq<string>>)
    ensures var r := ResolveZapFile(nodes, zapFiles);
      r.Failure? ==> EndsWith(Message(r.error), FirstZapFile(zapFiles).value)
    ensures forall f: string ::
      Message(FileNotFound(f)) != Message(NoZapFilesInDirectory(f)) &&
      Message(FileNotFound(f)) != Message(MultipleZapFilesInDirectory(f)) &&
      Message(NoZapFilesInDirectory(f)) != Message(MultipleZapFilesInDirectory(f))
  {
    var r := ResolveZapFile(nodes, zapFiles);
    if r.Failure? {
      var f := FirstZapFile(zapFiles).value;
      var m := Message(r.error);
      var prefix := m[..|m| - |f|];
      assert m == prefix + f;
      assert m[|m| - |f|..] == f;
    }
    forall f: string
      ensures Message(FileNotFound(f)) != Message(NoZapFilesInDirectory(f)) &&
        Message(FileNotFound(f)) != Message(MultipleZapFilesInDirectory(f)) &&
        Message(NoZapFilesInDirectory(f)) != Message(MultipleZapFilesInDirectory(f))
    {
      // the three prefixes have different lengths
      assert |Message(FileNotFound(f))| == 18 + |f|;
      assert |Message(NoZapFilesInDirectory(f))| == 35 + |f|;
      assert |Message(MultipleZapFilesInDirectory(f))| == 62 + |f|;
    }
  }

  /** The directory filter: only the literal suffixes `.zap` and `.ZAP`. */
  predicate IsZapName(name: string)
  {
    EndsWith(name, ".zap") || EndsWith(name, ".ZAP")
  }

  /** The paths the directory scan collects, in listing order. */
  function ZapFilesIn(dir: string, names: seq<string>): seq<string>
    decreases |names|
  {
    if names == [] then []
    else
      var last := names[|names| - 1];
      ZapFilesIn(dir, names[..|names| - 1]) + (if IsZapName(last) then [Join(dir, last)] else [])
  }

  /** The number of entry names that pass the filter. */
  function ZapCount(names: seq<string>): nat
    decreases |names|
  {
    if names == [] then 0
    else ZapCount(names[..|names| - 1]) + (if IsZapName(names[|names| - 1]) then 1 else 0)
  }

  /** Mixed-case suffixes are not recognised; the two literal spellings are. */
  lemma SuffixIsCaseSensitive()
    ensures IsZapName("device.zap") && IsZapName("device2.ZAP")
    ensures !IsZapName("device.Zap") && !IsZapName("device.zap.bak")
  {
    assert "device.zap"[6..] == ".zap";
    assert "device2.ZAP"[7..] == ".ZAP";
    assert "device.Zap"[6..] != ".zap";
    assert "device.Zap"[6..] != ".ZAP";
    assert "device.zap.bak"[10..] == ".bak";
  }

  /** The scan collects one joined path per matching entry and nothing else. */
  lemma {:induction false} ZapFilesInSpec(dir: string, names: seq<string>)
    ensures |ZapFilesIn(dir, names)| == ZapCount(names)
    ensures forall p :: p in ZapFilesIn(dir, names) <==>
      exists k :: 0 <= k < |names| && IsZapName(names[k]) && p == Join(dir, names[k])
    decreases |names|
  {
    if names != [] {
      var prefix := names[..|names| - 1];
      ZapFilesInSpec(dir, prefix);
      forall p
        ensures p in ZapFilesIn(dir, names) <==>
          exists k :: 0 <= k < |names| && IsZapName(names[k]) && p == Join(dir, names[k])
      {
        if p in ZapFilesIn(dir, prefix) {
          var k :| 0 <= k < |prefix| && IsZapName(prefix[k]) && p == Join(dir, prefix[k]);
          assert names[k] == prefix[k];
        }
        if exists k :: 0 <= k < |names| && IsZapName(names[k]) && p == Join(dir, names[k]) {
          var k :| 0 <= k < |names| && IsZapName(names[k]) && p == Join(dir, names[k]);
          if k < |prefix| {
            assert prefix[k] == names[k];
          }
        }
      }
    }
  }

  /** No entry passes the filter exactly when the count is zero. */
  lemma {:induction false} ZapCountZero(names: seq<string>)
    ensures ZapCount(names) == 0 <==> forall k :: 0 <= k < |names| ==> !IsZapName(names[k])
    decreases |names|
  {
    if names != [] {
      var prefix := names[..|names| - 1];
      ZapCountZero(prefix);
      assert forall k :: 0 <= k < |prefix| ==> prefix[k] == names[k];
    }
  }

  /** Two or more entries pass the filter exactly when the count is at least two. */
  lemma {:induction false} ZapCountMany(names: seq<string>)
    ensures ZapCount(names) >= 2 <==>
      exists i, j :: 0 <= i < j < |names| && IsZapName(names[i]) && IsZapName(names[j])
    decreases |names|
  {
    if names != [] {
      var n := |names| - 1;
      var prefix := names[..n];
      ZapCountMany(prefix);
      ZapCountZero(prefix);
      assert forall k :: 0 <= k < n ==> prefix[k] == names[k];
      if ZapCount(names) >= 2 {
        if IsZapName(names[n]) && ZapCount(prefix) < 2 {
          var i :| 0 <= i < n && IsZapName(prefix[i]);
          assert IsZapName(names[i]) && IsZapName(names[n]);
        } else {
          var i, j :| 0 <= i < j < n && IsZapName(prefix[i]) && IsZapName(prefix[j]);
          assert IsZapName(names[i]) && IsZapName(names[j]);
        }
      }
      if exists i, j :: 0 <= i < j < |names| && IsZapName(names[i]) && IsZapName(names[j]) {
        var i, j :| 0 <= i < j < |names| && IsZapName(names[i]) && IsZapName(names[j]);
        if j == n {
          assert IsZapName(prefix[i]);
        } else {
          assert IsZapName(prefix[i]) && IsZapName(prefix[j]);
        }
      }
    }
  }

  /** With exactly one matching entry the scan yields exactly its joined path. */
  lemma {:induction false} ZapFilesInSingle(dir: string, names: seq<string>, k: nat)
    requires k < |names| && IsZapName(names[k])
    requires forall j :: 0 <= j < |names| && j != k ==> !IsZapName(names[j])
    ensures ZapFilesIn(dir, names) == [Join(dir, names[k])]
    decreases |names|
  {
    var n := |names| - 1;
    var prefix := names[..n];
    if k == n {
      ZapFilesInSpec(dir, prefix);
      ZapCountZero(prefix);
      assert forall j :: 0 <= j < |prefix| ==> prefix[j] == names[j];
    } else {
      assert forall j :: 0 <= j < |prefix| ==> prefix[j] == names[j];
      ZapFilesInSingle(dir, prefix, k);
    }
  }

  /** The directory scan: `dirents.forEach(...)` pushing every matching entry. */
  method CollectZapFiles(dir: string, names: seq<string>) returns (usedFile: seq<string>)
    ensures usedFile == ZapFilesIn(dir, names)
  {
    usedFile := [];
    var i := 0;
    while i < |names|
      invariant 0 <= i <= |names|
      invariant usedFile == ZapFilesIn(dir, names[..i])
    {
      assert names[..i + 1][..i] == names[..i];
      if IsZapName(names[i]) {
        usedFile := usedFile + [Join(dir, names[i])];
      }
      i := i + 1;
    }
    assert names[..i] == names;
  }

  /** Only `zapFiles[0]` is ever looked at; null and empty mean "no input". */
  function FirstZapFile(zapFiles: Option<seq<string>>): Option<string>
  {
    if zapFiles.Some? && |zapFiles.value| > 0 then Some(zapFiles.value[0]) else None
  }

  /**
   * The input the generate run uses: None for an empty configuration, a
   * plain file as given, or the single `.zap`/`.ZAP` entry of a directory.
   */
  function ResolveZapFile(nodes: map<string, Node>, zapFiles: Option<seq<string>>): (r: Result<Option<string>, Error>)
    ensures r == Success(None) <==> FirstZapFile(zapFiles).None?
    ensures r.Failure? ==> var f := FirstZapFile(zapFiles).value;
      r.error in {FileNotFound(f), NoZapFilesInDirectory(f), MultipleZapFilesInDirectory(f)}
  {
    match FirstZapFile(zapFiles)
    case None => Success(None)
    case Some(zapFile) =>
      if zapFile !in nodes then Failure(FileNotFound(zapFile))
      else if nodes[zapFile].File? then Success(Some(zapFile))
      else
        var usedFile := ZapFilesIn(zapFile, nodes[zapFile].entries);
        if |usedFile| == 0 then Failure(NoZapFilesInDirectory(zapFile))
        else if |usedFile| > 1 then Failure(MultipleZapFilesInDirectory(zapFile))
        else Success(Some(usedFile[0]))
  }

  /** A directory resolves to its only matching entry, and fails with none or several. */
  lemma ResolveDirectory(nodes: map<string, Node>, dir: string, rest: seq<string>)
    requires dir in nodes && nodes[dir].Directory?
    ensures var names := nodes[dir].entries;
      var r := ResolveZapFile(nodes, Some([dir] + rest));
      (r == Failure(NoZapFilesInDirectory(dir)) <==> forall k :: 0 <= k < |names| ==> !IsZapName(names[k])) &&
      (r == Failure(MultipleZapFilesInDirectory(dir)) <==>
        exists i, j :: 0 <= i < j < |names| && IsZapName(names[i]) && IsZapName(names[j])) &&
      (forall k :: (0 <= k < |names| && IsZapName(names[k]) &&
                    (forall j :: 0 <= j < |names| && j != k ==> !IsZapName(names[j]))) ==>
        r == Success(Some(Join(dir, names[k]))))
  {
    var names := nodes[dir].entries;
    ZapFilesInSpec(dir, names);
    ZapCountZero(names);
    ZapCountMany(names);
    forall k | 0 <= k < |names| && IsZapName(names[k]) &&
        (forall j :: 0 <= j < |names| && j != k ==> !IsZapName(names[j]))
      ensures ResolveZapFile(nodes, Some([dir] + rest)) == Success(Some(Join(dir, names[k])))
    {
      ZapFilesInSingle(dir, names, k);
    }
  }

  /** Entries after the first never affect resolution; null and empty mean an empty configuration. */
  lemma ResolveOnlyFirst(nodes: map<string, Node>, zapFiles: seq<string>)
    ensures |zapFiles| > 0 ==> ResolveZapFile(nodes, Some(zapFiles)) == ResolveZapFile(nodes, Some([zapFiles[0]]))
    ensures |zapFiles| == 0 ==> ResolveZapFile(nodes, Some(zapFiles)) == Success(None)
    ensures ResolveZapFile(nodes, None) == Success(None)
  {
  }

  /** A missing path fails with "file not found"; an existing plain file is used as given. */
  lemma ResolvePath(nodes: map<string, Node>, zapFile: string, rest: seq<string>)
    ensures zapFile !in nodes ==> ResolveZapFile(nodes, Some([zapFile] + rest)) == Failure(FileNotFound(zapFile))
    ensures zapFile in nodes && nodes[zapFile].File? ==>
      ResolveZapFile(nodes, Some([zapFile] + rest)) == Success(Some(zapFile))
  {
  }

  // ---------------------------------------------------------------------
  // Stage sequences
  // ---------------------------------------------------------------------

  datatype RunResult = Done | Failed(error: Error)

  /** The events of a run and how it ended. */
  datatype Run = Run(events: seq<Event>, result: RunResult)

  /** Sequential composition: `b` only runs if `a` completed. */
  function Then(a: Run, b: Run): Run
  {
    if a.result.Done? then Run(a.events + b.events, b.result) else a
  }

  /** A trace that records `a` and then, when `a` completes, `b`, records `Then(a, b)`. */
  lemma ThenTrace(t0: seq<Event>, t1: seq<Event>, t2: seq<Event>, a: Run, b: Run)
    requires a.result.Done? && t1 == t0 + a.events && t2 == t1 + b.events
    ensures t2 == t0 + Then(a, b).events && Then(a, b).result == b.result
  {
    assert t0 + a.events + b.events == t0 + (a.events + b.events);
  }

  /** Two completed runs in a row are one completed run. */
  lemma ThenDoneAssoc(a: seq<Event>, b: seq<Event>, r: Run)
    ensures Then(Run(a, Done), Then(Run(b, Done), r)) == Then(Run(a + b, Done), r)
  {
    assert a + (b + r.events) == a + b + r.events;
  }

  /** `if (options.quit && app != null) app.quit()` */
  function QuitEvents(options: Options, hasApp: bool): seq<Event>
  {
    if options.quit && hasApp then [Quit] else []
  }

  /** The store file after the optional clean-db delete. */
  function CleanStore(nodes: map<string, Node>, dbFile: string, clean: bool): map<string, Node>
  {
    if clean && dbFile in nodes then nodes - {dbFile} else nodes
  }

  /**
   * The store stages every headless mode starts with: the clean-db delete when
   * asked for and the file exists, schema initialisation, then the metadata load.
   */
  function StoreStages(dbFile: string, existed: bool, clean: bool, zclProperties: string, c: Collaborators): Run
  {
    var unlink := if clean && existed then [Unlinked(dbFile)] else [];
    var init := unlink + [SchemaInitialized(dbFile, existed && !clean)];
    if !c.storeInitOk then Run(init, Failed(StoreInitFailed))
    else Run(init + [ZclLoaded(zclProperties)], if c.zclLoadOk then Done else Failed(MetadataLoadFailed))
  }

  /** With the clean flag, a store file that exists is deleted first, and the schema never sees it. */
  lemma StoreStagesCleanFirst(dbFile: string, existed: bool, zclProperties: string, c: Collaborators)
    ensures var run := StoreStages(dbFile, existed, true, zclProperties, c);
      (existed ==> run.events[0] == Unlinked(dbFile) && run.events[1] == SchemaInitialized(dbFile, false)) &&
      (!existed ==> run.events[0] == SchemaInitialized(dbFile, false)) &&
      forall e :: e in run.events && e.SchemaInitialized? ==> !e.storeExisted
  {
  }

  /** What a mode does with each imported session. */
  datatype Job = AnalyzeEach | ConvertEach(output: string)

  function PerFile(job: Job, session: SessionId): seq<Event>
  {
    match job
    case AnalyzeEach => [Reported(session)]
    case ConvertEach(output) => [Exported(session, output)]
  }

  /** Inputs processed one after another; a rejected import ends the run. */
  function ProcessAll(job: Job, paths: seq<string>, c: Collaborators): Run
    decreases |paths|
  {
    if paths == [] then Run([], Done)
    else if paths[0] !in c.imports then Run([Imported(paths[0])], Failed(ImportFailed(paths[0])))
    else Then(Run([Imported(paths[0])] + PerFile(job, c.imports[paths[0]]), Done), ProcessAll(job, paths[1..], c))
  }

  /** The inputs from `i` on: input `i`, then the inputs after it. */
  lemma ProcessAllHead(job: Job, paths: seq<string>, i: nat, c: Collaborators)
    requires i < |paths|
    ensures ProcessAll(job, paths[i..], c) ==
      if paths[i] !in c.imports then Run([Imported(paths[i])], Failed(ImportFailed(paths[i])))
      else Then(Run([Imported(paths[i])] + PerFile(job, c.imports[paths[i]]), Done), ProcessAll(job, paths[i + 1..], c))
  {
    assert paths[i..][0] == paths[i] && paths[i..][1..] == paths[i + 1..];
  }

  /** The paths of the import events, in order. */
  function ImportedPaths(events: seq<Event>): seq<string>
  {
    if events == [] then []
    else (if events[0].Imported? then [events[0].path] else []) + ImportedPaths(events[1..])
  }

  /** One event in front adds its path when it is an import. */
  lemma ImportedPathsCons(e: Event, rest: seq<Event>)
    ensures ImportedPaths([e] + rest) == (if e.Imported? then [e.path] else []) + ImportedPaths(rest)
  {
    assert ([e] + rest)[0] == e && ([e] + rest)[1..] == rest;
  }

  lemma {:induction false} ImportedPathsAppend(a: seq<Event>, b: seq<Event>)
    ensures ImportedPaths(a + b) == ImportedPaths(a) + ImportedPaths(b)
    decreases |a|
  {
    if a == [] {
      assert a + b == b;
    } else {
      ImportedPathsAppend(a[1..], b);
      assert a == [a[0]] + a[1..];
      assert a + b == [a[0]] + (a[1..] + b);
      ImportedPathsCons(a[0], a[1..]);
      ImportedPathsCons(a[0], a[1..] + b);
    }
  }

  /**
   * When every import resolves, the run completes, the inputs are imported
   * exactly in the given order, and each input is finished before the next
   * starts: input k's import is event 2k and its report or export event 2k + 1.
   */
  lemma ProcessAllInOrder(job: Job, paths: seq<string>, c: Collaborators)
    requires forall k :: 0 <= k < |paths| ==> paths[k] in c.imports
    ensures ProcessAll(job, paths, c).result == Done
    ensures ImportedPaths(ProcessAll(job, paths, c).events) == paths
    ensures |ProcessAll(job, paths, c).events| == 2 * |paths|
    ensures forall k :: 0 <= k < |paths| ==>
      ProcessAll(job, paths, c).events[2 * k] == Imported(paths[k]) &&
      [ProcessAll(job, paths, c).events[2 * k + 1]] == PerFile(job, c.imports[paths[k]])
  {
    ProcessAllImportsInOrder(job, paths, c);
    ProcessAllOneAtATime(job, paths, c);
  }

  /** When every import resolves, the run completes and imports the inputs exactly in order. */
  lemma {:induction false} ProcessAllImportsInOrder(job: Job, paths: seq<string>, c: Collaborators)
    requires forall k :: 0 <= k < |paths| ==> paths[k] in c.imports
    ensures ProcessAll(job, paths, c).result == Done
    ensures ImportedPaths(ProcessAll(job, paths, c).events) == paths
    decreases |paths|
  {
    if paths != [] {
      assert forall k :: 0 <= k < |paths[1..]| ==> paths[1..][k] == paths[k + 1];
      ProcessAllImportsInOrder(job, paths[1..], c);
      var step := PerFile(job, c.imports[paths[0]]);
      var head := [Imported(paths[0])] + step;
      var rest := ProcessAll(job, paths[1..], c);
      assert ProcessAll(job, paths, c) == Run(head + rest.events, rest.result);
      ImportedPathsAppend(head, rest.events);
      assert ImportedPaths(step) == [];
      ImportedPathsAppend([Imported(paths[0])], step);
      assert ImportedPaths(head) == [paths[0]];
      assert [paths[0]] + paths[1..] == paths;
    }
  }

  /** When every import resolves, input k takes events 2k (its import) and 2k + 1 (its report or export). */
  lemma {:induction false} ProcessAllOneAtATime(job: Job, paths: seq<string>, c: Collaborators)
    requires forall k :: 0 <= k < |paths| ==> paths[k] in c.imports
    ensures |ProcessAll(job, paths, c).events| == 2 * |paths|
    ensures forall k :: 0 <= k < |paths| ==>
      ProcessAll(job, paths, c).events[2 * k] == Imported(paths[k]) &&
      [ProcessAll(job, paths, c).events[2 * k + 1]] == PerFile(job, c.imports[paths[k]])
    decreases |paths|
  {
    if paths != [] {
      assert forall k :: 0 <= k < |paths[1..]| ==> paths[1..][k] == paths[k + 1];
      ProcessAllOneAtATime(job, paths[1..], c);
      var head := [Imported(paths[0])] + PerFile(job, c.imports[paths[0]]);
      var rest := ProcessAll(job, paths[1..], c);
      assert ProcessAll(job, paths, c) == Run(head + rest.events, rest.result);
      ProcessAllSlots(job, paths, c, head, rest.events);
    }
  }

  /** The slot layout of a first step followed by the rest's slots. */
  lemma ProcessAllSlots(job: Job, paths: seq<string>, c: Collaborators, head: seq<Event>, rest: seq<Event>)
    requires paths != [] && forall k :: 0 <= k < |paths| ==> paths[k] in c.imports
    requires head == [Imported(paths[0])] + PerFile(job, c.imports[paths[0]])
    requires |rest| == 2 * (|paths| - 1)
    requires forall k :: 0 <= k < |paths| - 1 ==>
      rest[2 * k] == Imported(paths[k + 1]) && [rest[2 * k + 1]] == PerFile(job, c.imports[paths[k + 1]])
    ensures |head + rest| == 2 * |paths|
    ensures forall k :: 0 <= k < |paths| ==>
      (head + rest)[2 * k] == Imported(paths[k]) && [(head + rest)[2 * k + 1]] == PerFile(job, c.imports[paths[k]])
  {
    var all := head + rest;
    assert |head| == 2;
    forall k | 0 <= k < |paths|
      ensures all[2 * k] == Imported(paths[k]) && [all[2 * k + 1]] == PerFile(job, c.imports[paths[k]])
    {
      if k > 0 {
        assert all[2 * k] == rest[2 * (k - 1)];
        assert all[2 * k + 1] == rest[2 * (k - 1) + 1];
      }
    }
  }

  /**
   * A rejected import of input `k` ends the run with that error: inputs after
   * it are never imported.
   */
  lemma {:induction false} ProcessAllStopsAtFailure(job: Job, paths: seq<string>, c: Collaborators, k: nat)
    requires k < |paths| && paths[k] !in c.imports
    requires forall j :: 0 <= j < k ==> paths[j] in c.imports
    ensures ProcessAll(job, paths, c).result == Failed(ImportFailed(paths[k]))
    ensures ImportedPaths(ProcessAll(job, paths, c).events) == paths[..k + 1]
    decreases |paths|
  {
    if k == 0 {
      assert ImportedPaths([Imported(paths[0])]) == [paths[0]];
    } else {
      var tail := paths[1..];
      assert forall j :: 0 <= j < k - 1 ==> tail[j] == paths[j + 1];
      ProcessAllStopsAtFailure(job, tail, c, k - 1);
      ProcessAllImportedStep(job, paths, c);
      assert [paths[0]] + paths[1..][..k] == paths[..k + 1];
    }
  }

  /** An input whose import resolves adds its path to the imported ones and leaves the result to the rest. */
  lemma ProcessAllImportedStep(job: Job, paths: seq<string>, c: Collaborators)
    requires paths != [] && paths[0] in c.imports
    ensures ProcessAll(job, paths, c).result == ProcessAll(job, paths[1..], c).result
    ensures ImportedPaths(ProcessAll(job, paths, c).events) ==
      [paths[0]] + ImportedPaths(ProcessAll(job, paths[1..], c).events)
  {
    var step := PerFile(job, c.imports[paths[0]]);
    var rest := ProcessAll(job, paths[1..], c).events;
    ImportedPathsAppend([Imported(paths[0])] + step, rest);
    ImportedPathsAppend([Imported(paths[0])], step);
    assert ImportedPaths(step) == [];
  }

  /**
   * Convert exports every input to the same output, so when every import
   * resolves the last export is that of the last input.
   */
  lemma {:induction false} ConvertLastInputWins(paths: seq<string>, output: string, c: Collaborators)
    requires paths != []
    requires forall k :: 0 <= k < |paths| ==> paths[k] in c.imports
    ensures var events := ProcessAll(ConvertEach(output), paths, c).events;
      events != [] && events[|events| - 1] == Exported(c.imports[paths[|paths| - 1]], output) &&
      forall e :: e in events && e.Exported? ==> e.output == output
    decreases |paths|
  {
    var job := ConvertEach(output);
    var tail := paths[1..];
    var head := [Imported(paths[0]), Exported(c.imports[paths[0]], output)];
    var rest := ProcessAll(job, tail, c).events;
    assert ProcessAll(job, paths, c).events == head + rest;
    assert forall e :: e in head + rest <==> e in head || e in rest;
    if |paths| > 1 {
      assert forall k :: 0 <= k < |tail| ==> tail[k] == paths[k + 1];
      ConvertLastInputWins(tail, output, c);
      assert tail[|tail| - 1] == paths[|paths| - 1];
    } else {
      assert tail == [] && rest == [];
    }
  }

  /** Self-check: store stages, then templates; a template error is only a warning. */
  function SelfCheckRun(dbFile: string, existed: bool, templateFile: string, zclProperties: string,
                        options: Options, c: Collaborators, hasApp: bool): Run
  {
    Then(StoreStages(dbFile, existed, options.cleanDb, zclProperties, c),
      Run(SelfCheckTemplateEvents(templateFile, options, c, hasApp), Done))
  }

  /** Self-check after the store: the templates, a logged warning for a template error, and the quit. */
  function SelfCheckTemplateEvents(templateFile: string, options: Options, c: Collaborators, hasApp: bool): seq<Event>
  {
    [TemplatesLoaded(templateFile)] +
    (if options.log && c.templateError.Some? then [Warning(c.templateError.value)] else []) +
    QuitEvents(options, hasApp)
  }

  /** Analyze: store stages, then import and report each input in order. */
  function AnalyzeRun(dbFile: string, existed: bool, paths: seq<string>, zclProperties: string,
                      options: Options, c: Collaborators, hasApp: bool): Run
  {
    Then(StoreStages(dbFile, existed, options.cleanDb, zclProperties, c),
      Then(ProcessAll(AnalyzeEach, paths, c), Run(QuitEvents(options, hasApp), Done)))
  }

  /** Convert: store stages (never cleaned), then import and export each input in order. */
  function ConvertRun(dbFile: string, existed: bool, paths: seq<string>, output: string, zclProperties: string,
                      options: Options, c: Collaborators, hasApp: bool): Run
  {
    Then(StoreStages(dbFile, existed, false, zclProperties, c),
      Then(ProcessAll(ConvertEach(output), paths, c), Run(QuitEvents(options, hasApp), Done)))
  }

  /** Generation into one session: fatal when the generator reports errors, and then no quit. */
  function GenerateInto(session: SessionId, opening: seq<Event>, output: Option<string>,
                        options: Options, c: Collaborators, hasApp: bool): Run
  {
    var events := opening + [SessionPackagesInitialized(session), Generated(session, c.templatePackage, output)];
    if c.generationHasErrors then Run(events, Failed(GenerationFailed))
    else Run(events + QuitEvents(options, hasApp), Done)
  }

  /** A blank session for an empty configuration, otherwise the imported one. */
  function SessionAndGenerate(zapFile: Option<string>, output: Option<string>,
                              options: Options, c: Collaborators, hasApp: bool): Run
  {
    match zapFile
    case None => GenerateInto(c.blankSession, [BlankSessionCreated(c.blankSession)], output, options, c, hasApp)
    case Some(f) =>
      if f !in c.imports then Run([Imported(f)], Failed(ImportFailed(f)))
      else GenerateInto(c.imports[f], [Imported(f)], output, options, c, hasApp)
  }

  /** The warning for extra inputs. */
  function ExtraInputWarning(zapFiles: Option<seq<string>>, options: Options): seq<Event>
  {
    if zapFiles.Some? && |zapFiles.value| > 1 && options.log then [Warning(MultipleFilesWarning)] else []
  }

  /** Loading the generation templates, fatal on error. */
  function TemplateStage(templateFile: string, c: Collaborators): Run
  {
    Run([TemplatesLoaded(templateFile)],
        if c.templateError.Some? then Failed(TemplateLoadFailed(c.templateError.value)) else Done)
  }

  /** Generate once its input is resolved: the store stages, templates, the session and generation. */
  function GenerateResolved(zapFile: Option<string>, dbFile: string, existed: bool, output: Option<string>,
                            templateFile: string, zclProperties: string, options: Options,
                            c: Collaborators, hasApp: bool): Run
  {
    Then(StoreStages(dbFile, existed, options.cleanDb, zclProperties, c),
      Then(TemplateStage(templateFile, c), SessionAndGenerate(zapFile, output, options, c, hasApp)))
  }

  /**
   * Generate: resolve the input (reading `nodes`), then the store stages,
   * templates (fatal on error), the session and generation.
   */
  function GenerationRun(nodes: map<string, Node>, dbFile: string, output: Option<string>, templateFile: string,
                         zclProperties: string, zapFiles: Option<seq<string>>, options: Options,
                         c: Collaborators, hasApp: bool): Run
  {
    var warn := ExtraInputWarning(zapFiles, options);
    match ResolveZapFile(nodes, zapFiles)
    case Failure(e) => Run(warn, Failed(e))
    case Success(zapFile) =>
      Then(Run(warn, Done),
        GenerateResolved(zapFile, dbFile, dbFile in nodes, output, templateFile, zclProperties, options, c, hasApp))
  }

  /** A store-free event: a warning. */
  predicate IsWarning(e: Event)
  {
    e.Warning?
  }

  /** An input that does not resolve aborts generate before the store is touched. */
  lemma GenerationInputErrorIsEarly(nodes: map<string, Node>, dbFile: string, output: Option<string>,
                                    templateFile: string, zclProperties: string, zapFiles: Option<seq<string>>,
                                    options: Options, c: Collaborators, hasApp: bool)
    requires ResolveZapFile(nodes, zapFiles).Failure?
    ensures var run := GenerationRun(nodes, dbFile, output, templateFile, zclProperties, zapFiles, options, c, hasApp);
      run.result == Failed(ResolveZapFile(nodes, zapFiles).error) &&
      forall e :: e in run.events ==> IsWarning(e)
  {
  }

  /** With more than one input, generate behaves as with the first alone, plus one warning. */
  lemma GenerationUsesFirstInput(nodes: map<string, Node>, dbFile: string, output: Option<string>,
                                 templateFile: string, zclProperties: string, zapFiles: seq<string>,
                                 options: Options, c: Collaborators, hasApp: bool)
    requires |zapFiles| > 0
    ensures var many := GenerationRun(nodes, dbFile, output, templateFile, zclProperties, Some(zapFiles), options, c, hasApp);
      var one := GenerationRun(nodes, dbFile, output, templateFile, zclProperties, Some([zapFiles[0]]), options, c, hasApp);
      many.result == one.result &&
      many.events == (if |zapFiles| > 1 && options.log then [Warning(MultipleFilesWarning)] else []) + one.events
  {
    ResolveOnlyFirst(nodes, zapFiles);
  }

  /** Generate with the clean flag deletes an existing store file before schema initialisation. */
  lemma GenerationCleansBeforeInit(nodes: map<string, Node>, dbFile: string, output: Option<string>,
                                   templateFile: string, zclProperties: string, zapFiles: Option<seq<string>>,
                                   options: Options, c: Collaborators, hasApp: bool)
    requires ResolveZapFile(nodes, zapFiles).Success? && options.cleanDb && dbFile in nodes
    ensures var events := GenerationRun(nodes, dbFile, output, templateFile, zclProperties, zapFiles, options, c, hasApp).events;
      exists i, j :: 0 <= i < j < |events| && events[i] == Unlinked(dbFile) && events[j] == SchemaInitialized(dbFile, false)
  {
    var warn := ExtraInputWarning(zapFiles, options);
    var events := GenerationRun(nodes, dbFile, output, templateFile, zclProperties, zapFiles, options, c, hasApp).events;
    assert events[|warn|] == Unlinked(dbFile);
    assert events[|warn| + 1] == SchemaInitialized(dbFile, false);
  }

  /** A template error is fatal in generate: no session is created and nothing is generated. */
  lemma GenerationTemplateErrorIsFatal(nodes: map<string, Node>, dbFile: string, output: Option<string>,
                                       templateFile: string, zclProperties: string, zapFiles: Option<seq<string>>,
                                       options: Options, c: Collaborators, hasApp: bool)
    requires ResolveZapFile(nodes, zapFiles).Success? && c.storeInitOk && c.zclLoadOk && c.templateError.Some?
    ensures var run := GenerationRun(nodes, dbFile, output, templateFile, zclProperties, zapFiles, options, c, hasApp);
      run.result == Failed(TemplateLoadFailed(c.templateError.value)) &&
      forall e :: e in run.events ==>
        !e.BlankSessionCreated? && !e.Imported? && !e.Generated? && e != Quit
  {
  }

  /** A template error is only a warning in self-check: the run completes and quits. */
  lemma SelfCheckTemplateErrorIsWarning(dbFile: string, existed: bool, templateFile: string, zclProperties: string,
                                        options: Options, c: Collaborators, hasApp: bool)
    requires c.storeInitOk && c.zclLoadOk
    ensures var run := SelfCheckRun(dbFile, existed, templateFile, zclProperties, options, c, hasApp);
      run.result == Done &&
      (Quit in run.events <==> options.quit && hasApp) &&
      (options.log && c.templateError.Some? ==> Warning(c.templateError.value) in run.events)
  {
  }

  /** Generator errors fail the run, and then `app.quit` is never reached. */
  lemma GenerationErrorsSuppressQuit(nodes: map<string, Node>, dbFile: string, output: Option<string>,
                                     templateFile: string, zclProperties: string, zapFiles: Option<seq<string>>,
                                     options: Options, c: Collaborators, hasApp: bool)
    requires c.generationHasErrors
    ensures var run := GenerationRun(nodes, dbFile, output, templateFile, zclProperties, zapFiles, options, c, hasApp);
      Quit !in run.events &&
      (ResolveZapFile(nodes, zapFiles).Success? && c.storeInitOk && c.zclLoadOk && c.templateError.None? &&
       (ResolveZapFile(nodes, zapFiles).value.Some? ==> ResolveZapFile(nodes, zapFiles).value.value in c.imports) ==>
        run.result == Failed(GenerationFailed))
  {
    var warn := ExtraInputWarning(zapFiles, options);
    assert Quit !in warn;
    match ResolveZapFile(nodes, zapFiles)
    case Failure(_) =>
    case Success(zapFile) =>
      var store := StoreStages(dbFile, dbFile in nodes, options.cleanDb, zclProperties, c);
      var templates := TemplateStage(templateFile, c);
      var generate := SessionAndGenerate(zapFile, output, options, c, hasApp);
      assert Quit !in store.events && Quit !in templates.events && Quit !in generate.events;
  }

  /** Generate completes only by reaching the generator, into the resolved or blank session, with no errors. */
  lemma GenerationSuccess(nodes: map<string, Node>, dbFile: string, output: Option<string>,
                          templateFile: string, zclProperties: string, zapFiles: Option<seq<string>>,
                          options: Options, c: Collaborators, hasApp: bool)
    ensures var run := GenerationRun(nodes, dbFile, output, templateFile, zclProperties, zapFiles, options, c, hasApp);
      run.result == Done <==>
        ResolveZapFile(nodes, zapFiles).Success? && c.storeInitOk && c.zclLoadOk && c.templateError.None? &&
        !c.generationHasErrors &&
        (ResolveZapFile(nodes, zapFiles).value.Some? ==> ResolveZapFile(nodes, zapFiles).value.value in c.imports)
    ensures var run := GenerationRun(nodes, dbFile, output, templateFile, zclProperties, zapFiles, options, c, hasApp);
      run.result == Done ==>
        (Quit in run.events <==> options.quit && hasApp) &&
        var zapFile := ResolveZapFile(nodes, zapFiles).value;
        var session := if zapFile.None? then c.blankSession else c.imports[zapFile.value];
        Generated(session, c.templatePackage, output) in run.events
  {
    var warn := ExtraInputWarning(zapFiles, options);
    match ResolveZapFile(nodes, zapFiles)
    case Failure(_) =>
    case Success(zapFile) =>
      var rest := GenerateResolved(zapFile, dbFile, dbFile in nodes, output, templateFile, zclProperties, options, c, hasApp);
      GenerateResolvedSuccess(zapFile, dbFile, dbFile in nodes, output, templateFile, zclProperties, options, c, hasApp);
      assert Quit !in warn;
      assert forall e :: e in warn + rest.events <==> e in warn || e in rest.events;
  }

  /** The resolved part of generate completes exactly when every stage does. */
  lemma GenerateResolvedSuccess(zapFile: Option<string>, dbFile: string, existed: bool, output: Option<string>,
                                templateFile: string, zclProperties: string, options: Options,
                                c: Collaborators, hasApp: bool)
    ensures var run := GenerateResolved(zapFile, dbFile, existed, output, templateFile, zclProperties, options, c, hasApp);
      run.result == Done <==>
        c.storeInitOk && c.zclLoadOk && c.templateError.None? && !c.generationHasErrors &&
        (zapFile.Some? ==> zapFile.value in c.imports)
    ensures var run := GenerateResolved(zapFile, dbFile, existed, output, templateFile, zclProperties, options, c, hasApp);
      run.result == Done ==>
        (Quit in run.events <==> options.quit && hasApp) &&
        var session := if zapFile.None? then c.blankSession else c.imports[zapFile.value];
        Generated(session, c.templatePackage, output) in run.events
  {
    var store := StoreStages(dbFile, existed, options.cleanDb, zclProperties, c);
    var templates := TemplateStage(templateFile, c);
    var generate := SessionAndGenerate(zapFile, output, options, c, hasApp);
    if store.result.Done? && templates.result.Done? && generate.result.Done? {
      assert Quit !in store.events && Quit !in templates.events;
      var all := store.events + (templates.events + generate.events);
      assert forall e :: e in all <==> e in store.events || e in templates.events || e in generate.events;
    }
  }

  // ---------------------------------------------------------------------
  // Command dispatch
  // ---------------------------------------------------------------------

  /** The parsed command line, as far as startup reads it. */
  datatype Argv = Argv(
    commands: seq<string>,
    zapFiles: seq<string>,
    output: Option<string>,
    generationTemplate: string,
    zclProperties: string,
    logToStdout: bool,
    // true when the option was given at all (`argv.clearDb != null`), whatever its value
    clearDb: bool)

  /** The mode startup settles on, with the arguments it passes on. */
  datatype Command =
    | SelfCheckMode
    | AnalyzeMode(files: seq<string>)
    | ConvertMode(files: seq<string>, convertOutput: string)
    | GenerateMode(generateOutput: Option<string>, template: string, properties: string, inputs: seq<string>)
    | NormalMode
    | UiUnavailableMode

  /** Mode precedence selfCheck > analyze > convert > generate > normal, with each mode's argument checks. */
  function Dispatch(argv: Argv, isElectron: bool): (r: Result<Command, Error>)
    ensures r.Failure? ==> r.error == NoZapFileGiven || r.error == NoOutputGiven
    ensures r.Success? && r.value.ConvertMode? ==> argv.output == Some(r.value.convertOutput)
  {
    if "selfCheck" in argv.commands then Success(SelfCheckMode)
    else if "analyze" in argv.commands then
      if |argv.zapFiles| < 1 then Failure(NoZapFileGiven) else Success(AnalyzeMode(argv.zapFiles))
    else if "convert" in argv.commands then
      if |argv.zapFiles| < 1 then Failure(NoZapFileGiven)
      else if argv.output.None? then Failure(NoOutputGiven)
      else Success(ConvertMode(argv.zapFiles, argv.output.value))
    else if "generate" in argv.commands then
      Success(GenerateMode(argv.output, argv.generationTemplate, argv.zclProperties, argv.zapFiles))
    else if isElectron then Success(NormalMode)
    else Success(UiUnavailableMode)
  }

  /** Which modes can reject their arguments, and which command wins when several are given. */
  lemma DispatchPrecedence(argv: Argv, isElectron: bool)
    ensures "selfCheck" in argv.commands ==> Dispatch(argv, isElectron) == Success(SelfCheckMode)
    ensures Dispatch(argv, isElectron).Failure? <==>
      "selfCheck" !in argv.commands && ("analyze" in argv.commands || "convert" in argv.commands) &&
      (|argv.zapFiles| == 0 || ("analyze" !in argv.commands && argv.output.None?))
    ensures Dispatch(argv, isElectron) == Failure(NoOutputGiven) ==>
      "convert" in argv.commands && |argv.zapFiles| > 0
    ensures "selfCheck" !in argv.commands && "analyze" in argv.commands && |argv.zapFiles| > 0 ==>
      Dispatch(argv, isElectron) == Success(AnalyzeMode(argv.zapFiles))
    ensures ("selfCheck" !in argv.commands && "analyze" !in argv.commands && "convert" in argv.commands &&
             |argv.zapFiles| > 0 && argv.output.Some?) ==>
      Dispatch(argv, isElectron) == Success(ConvertMode(argv.zapFiles, argv.output.value))
    ensures ("selfCheck" !in argv.commands && "analyze" !in argv.commands && "convert" !in argv.commands &&
             "generate" in argv.commands) ==>
      Dispatch(argv, isElectron) ==
        Success(GenerateMode(argv.output, argv.generationTemplate, argv.zclProperties, argv.zapFiles))
    ensures (Dispatch(argv, isElectron) == Success(NormalMode) || Dispatch(argv, isElectron) == Success(UiUnavailableMode)) <==>
      forall m :: m in ["selfCheck", "analyze", "convert", "generate"] ==> m !in argv.commands
    ensures Dispatch(argv, isElectron) == Success(NormalMode) <==>
      isElectron && forall m :: m in ["selfCheck", "analyze", "convert", "generate"] ==> m !in argv.commands
  {
  }

  /** How a startup ends. */
  datatype Outcome = Completed | Aborted(error: Error) | Exited(code: int) | Interactive | UiUnavailable

  datatype Launch = Launch(events: seq<Event>, outcome: Outcome)

  function OutcomeOf(r: RunResult): Outcome
  {
    if r.Done? then Completed else Aborted(r.error)
  }

  /**
   * The store a mode acquires, and whether it cleans it (None: no store is
   * touched in this model; the default store that `startNormal` opens is not
   * part of it).
   */
  function StoreUse(cmd: Result<Command, Error>, nodes: map<string, Node>): Option<(string, bool)>
  {
    match cmd
    case Failure(_) => None
    case Success(SelfCheckMode) => Some((SelfCheckStoreName, true))
    case Success(AnalyzeMode(_)) => Some((AnalysisStoreName, true))
    case Success(ConvertMode(_, _)) => Some((ConvertStoreName, false))
    case Success(GenerateMode(_, _, _, inputs)) =>
      if ResolveZapFile(nodes, Some(inputs)).Success? then Some((GenerateStoreName, true)) else None
    case Success(NormalMode) => None
    case Success(UiUnavailableMode) => None
  }

  /** The part of the environment startup changes: the state directory, the file system and the version object. */
  datatype EnvState = EnvState(stateDirectory: Option<string>, nodes: map<string, Node>, version: Option<VersionObject>)

  /** The environment once the mode has run: a mode that acquires a store resolves the directory, creates it, cleans the store and reads the version. */
  function ModeState(cmd: Result<Command, Error>, before: EnvState, homedir: string,
                     packageJson: Option<PackageInfo>, versionJson: Option<BuildInfo>): EnvState
  {
    match StoreUse(cmd, before.nodes)
    case None => before
    case Some((name, clean)) =>
      var dir := AppDirFor(before.stateDirectory, homedir);
      EnvState(Some(dir),
               CleanStore(NodesAfterAppDirectory(before.stateDirectory, homedir, before.nodes), SqlitePath(dir, name), clean),
               Some(VersionAfter(before.version, packageJson, versionJson)))
  }

  /** The environment once logging is set up and the backup is made. */
  function PreludeState(logToStdout: bool, clearDb: bool, loggerSet: bool, before: EnvState, homedir: string): EnvState
  {
    EnvState(if PreludeResolvesDirectory(logToStdout, clearDb, loggerSet)
             then Some(AppDirFor(before.stateDirectory, homedir)) else before.stateDirectory,
             NodesAfterPrelude(logToStdout, clearDb, loggerSet, before.stateDirectory, homedir, before.nodes),
             before.version)
  }

  /** The prelude leaves the directory the state resolves to as it was, and its file system is `NodesAfterPrelude`'s. */
  lemma PreludeKeepsDirectory(logToStdout: bool, clearDb: bool, loggerSet: bool, before: EnvState, homedir: string)
    ensures var after := PreludeState(logToStdout, clearDb, loggerSet, before, homedir);
      AppDirFor(after.stateDirectory, homedir) == AppDirFor(before.stateDirectory, homedir) &&
      after.nodes == NodesAfterPrelude(logToStdout, clearDb, loggerSet, before.stateDirectory, homedir, before.nodes)
  {
  }

  /** The selected mode, run with default options; a failed generate exits with status 1. */
  function ModeRun(cmd: Result<Command, Error>, dir: string, nodes: map<string, Node>, c: Collaborators,
                   hasApp: bool, zclPropertiesFile: string, genTemplateJsonFile: string): Launch
  {
    match cmd
    case Failure(e) => Launch([], Aborted(e))
    case Success(SelfCheckMode) =>
      var dbFile := SqlitePath(dir, SelfCheckStoreName);
      var run := SelfCheckRun(dbFile, dbFile in nodes, genTemplateJsonFile, zclPropertiesFile, DefaultOptions, c, hasApp);
      Launch(run.events, OutcomeOf(run.result))
    case Success(AnalyzeMode(files)) =>
      var dbFile := SqlitePath(dir, AnalysisStoreName);
      var run := AnalyzeRun(dbFile, dbFile in nodes, files, zclPropertiesFile, DefaultOptions, c, hasApp);
      Launch(run.events, OutcomeOf(run.result))
    case Success(ConvertMode(files, output)) =>
      var dbFile := SqlitePath(dir, ConvertStoreName);
      var run := ConvertRun(dbFile, dbFile in nodes, files, output, zclPropertiesFile, DefaultOptions, c, hasApp);
      Launch(run.events, OutcomeOf(run.result))
    case Success(GenerateMode(output, template, properties, inputs)) =>
      var dbFile := SqlitePath(dir, GenerateStoreName);
      var run := GenerationRun(nodes, dbFile, output, template, properties, Some(inputs), DefaultOptions, c, hasApp);
      if run.result.Failed? then Launch(run.events + [Exit(1)], Exited(1))
      else Launch(run.events, Completed)
    case Success(NormalMode) => Launch([], Interactive)
    case Success(UiUnavailableMode) => Launch([], UiUnavailable)
  }

  /**
   * `startUp`: logging set up, the optional backup of the default store, then
   * the mode the command line selects. `dir` is the state directory and
   * `nodes` the file system once logging is set up.
   */
  function StartUpRun(argv: Argv, isElectron: bool, dir: string, nodes: map<string, Node>,
                      c: Collaborators, hasApp: bool, zclPropertiesFile: string, genTemplateJsonFile: string): Launch
  {
    var backup := if argv.clearDb then [BackedUp(SqlitePath(dir, DefaultStoreName))] else [];
    var mode := ModeRun(Dispatch(argv, isElectron), dir, nodes, c, hasApp, zclPropertiesFile, genTemplateJsonFile);
    Launch(backup + mode.events, mode.outcome)
  }

  /**
   * The prelude followed by the dispatched mode is `StartUpRun`: the prelude's
   * backup event, then the mode's run in the directory and on the file system
   * the prelude leaves.
   */
  lemma StartUpComposes(argv: Argv, isElectron: bool, dir: string, nodes: map<string, Node>,
                        middleDir: string, middleNodes: map<string, Node>, c: Collaborators, hasApp: bool,
                        zclPropertiesFile: string, genTemplateJsonFile: string,
                        t0: seq<Event>, t1: seq<Event>, t2: seq<Event>, outcome: Outcome)
    requires middleDir == dir && middleNodes == nodes
    requires t1 == t0 + (if argv.clearDb then [BackedUp(SqlitePath(dir, DefaultStoreName))] else [])
    requires var mode := ModeRun(Dispatch(argv, isElectron), middleDir, middleNodes,
                                 c, hasApp, zclPropertiesFile, genTemplateJsonFile);
      t2 == t1 + mode.events && outcome == mode.outcome
    ensures var launch := StartUpRun(argv, isElectron, dir, nodes, c, hasApp, zclPropertiesFile, genTemplateJsonFile);
      t2 == t0 + launch.events && outcome == launch.outcome
  {
    var backup := if argv.clearDb then [BackedUp(SqlitePath(dir, DefaultStoreName))] else [];
    var mode := ModeRun(Dispatch(argv, isElectron), dir, nodes, c, hasApp, zclPropertiesFile, genTemplateJsonFile);
    ThenTrace(t0, t1, t2, Run(backup, Done), Run(mode.events, Done));
  }

  /** A failing generate started from the command line always ends in `process.exit(1)`. */
  lemma StartUpGenerateFailureExits(argv: Argv, isElectron: bool, dir: string, nodes: map<string, Node>,
                                    c: Collaborators, hasApp: bool, zclPropertiesFile: string, genTemplateJsonFile: string)
    requires Dispatch(argv, isElectron).Success? && Dispatch(argv, isElectron).value.GenerateMode?
    ensures var launch := StartUpRun(argv, isElectron, dir, nodes, c, hasApp, zclPropertiesFile, genTemplateJsonFile);
      launch.outcome == Completed || (launch.outcome == Exited(1) && launch.events[|launch.events| - 1] == Exit(1))
    ensures var launch := StartUpRun(argv, isElectron, dir, nodes, c, hasApp, zclPropertiesFile, genTemplateJsonFile);
      c.generationHasErrors ==> launch.outcome == Exited(1) && Quit !in launch.events
  {
    var cmd := Dispatch(argv, isElectron).value;
    if c.generationHasErrors {
      GenerationErrorsSuppressQuit(nodes, SqlitePath(dir, GenerateStoreName), cmd.generateOutput, cmd.template,
        cmd.properties, Some(cmd.inputs), DefaultOptions, c, hasApp);
    }
    GenerationSuccess(nodes, SqlitePath(dir, GenerateStoreName), cmd.generateOutput, cmd.template,
      cmd.properties, Some(cmd.inputs), DefaultOptions, c, hasApp);
  }

  /** Whether setting up logging and the backup resolve the state directory. */
  predicate PreludeResolvesDirectory(logToStdout: bool, clearDb: bool, loggerSet: bool)
  {
    (!logToStdout && !loggerSet) || clearDb
  }

  /** The file system once logging is set up and the backup is made. */
  function NodesAfterPrelude(logToStdout: bool, clearDb: bool, loggerSet: bool, stateDirectory: Option<string>,
                             homedir: string, nodes: map<string, Node>): map<string, Node>
  {
    if PreludeResolvesDirectory(logToStdout, clearDb, loggerSet)
    then NodesAfterAppDirectory(stateDirectory, homedir, nodes) else nodes
  }

  /** The logger once logging is set up: the first explicit choice sticks. */
  function LoggerAfterPrelude(logToStdout: bool, loggerSet: bool, logger: Logger, dir: string): Logger
  {
    if loggerSet then logger else if logToStdout then StdoutLogger else FileLogger(Join(dir, "zap.log"))
  }

  // ---------------------------------------------------------------------
  // The orchestrator
  // ---------------------------------------------------------------------

  /**
   * The orchestrator's world: the environment (state directory, file system,
   * logger, version object), the collaborators' answers, whether an Electron
   * `app` is present, the `args` defaults for the metadata and template files,
   * and the trace of events so far.
   */
  class Pipeline {
    const env: Environment
    const collab: Collaborators
    const hasApp: bool
    const argsZclProperties: string
    const argsGenTemplates: string
    var trace: seq<Event>

    constructor (env: Environment, collab: Collaborators, hasApp: bool, argsZclProperties: string, argsGenTemplates: string)
      ensures this.env == env && this.collab == collab && this.hasApp == hasApp
      ensures this.argsZclProperties == argsZclProperties && this.argsGenTemplates == argsGenTemplates
      ensures trace == []
    {
      this.env := env;
      this.collab := collab;
      this.hasApp := hasApp;
      this.argsZclProperties := argsZclProperties;
      this.argsGenTemplates := argsGenTemplates;
      trace := [];
    }

    /**
     * The environment after a mode has acquired its store: the state directory
     * is resolved (and created if it was the default), the store file is gone
     * if it was cleaned, and the version object is computed.
     */
    twostate predicate StoreAcquired(name: string, clean: bool)
      reads this, env, env.fs
    {
      var dir := AppDirFor(old(env.applicationStateDirectory), env.homedir);
      env.applicationStateDirectory == Some(dir) &&
      env.fs.nodes == CleanStore(NodesAfterAppDirectory(old(env.applicationStateDirectory), env.homedir,
                                                         old(env.fs.nodes)), SqlitePath(dir, name), clean) &&
      env.versionObject == Some(VersionAfter(old(env.versionObject), env.packageJson, env.versionJson)) &&
      env.dbInstance == old(env.dbInstance)
    }

    method Emit(e: Event)
      modifies this`trace
      ensures trace == old(trace) + [e]
    {
      trace := trace + [e];
    }

    /** `fs.unlinkSync(dbFile)` */
    method RemoveStoreFile(dbFile: string)
      requires env.fs.Exists(dbFile)
      modifies this`trace, env.fs
      ensures trace == old(trace) + [Unlinked(dbFile)]
      ensures env.fs.nodes == old(env.fs.nodes) - {dbFile}
    {
      env.fs.Unlink(dbFile);
      Emit(Unlinked(dbFile));
    }

    /** `initDatabaseAndLoadSchema(dbFile, schemaFile(), zapVersion())` */
    method InitDatabaseAndLoadSchema(dbFile: string) returns (ok: bool)
      modifies this`trace, env`versionObject
      ensures trace == old(trace) + [SchemaInitialized(dbFile, dbFile in env.fs.nodes)]
      ensures ok == collab.storeInitOk
      ensures env.versionObject == Some(VersionAfter(old(env.versionObject), env.packageJson, env.versionJson))
    {
      var version := env.ZapVersion();
      Emit(SchemaInitialized(dbFile, env.fs.Exists(dbFile)));
      ok := collab.storeInitOk;
    }

    /**
     * The store stages every headless mode opens with: `sqliteFile(name)`, the
     * clean-db delete, `initDatabaseAndLoadSchema`, and the metadata load.
     */
    method AcquireStore(name: string, clean: bool, zclProperties: string) returns (r: RunResult)
      modifies this`trace, env, env.fs
      ensures var dbFile := SqlitePath(AppDirFor(old(env.applicationStateDirectory), env.homedir), name);
        var run := StoreStages(dbFile, dbFile in old(env.fs.nodes), clean, zclProperties, collab);
        trace == old(trace) + run.events && r == run.result
      ensures StoreAcquired(name, clean)
      ensures env.explicitLoggerSet == old(env.explicitLoggerSet) && env.logger == old(env.logger)
    {
      var dbFile := env.SqliteFile(name);
      ghost var dir := AppDirFor(old(env.applicationStateDirectory), env.homedir);
      SqlitePathIsNotDir(dir, name);
      ghost var existed := dbFile in old(env.fs.nodes);
      assert existed <==> env.fs.Exists(dbFile);
      if clean && env.fs.Exists(dbFile) {
        RemoveStoreFile(dbFile);
      }
      var ok := InitDatabaseAndLoadSchema(dbFile);
      if !ok {
        return Failed(StoreInitFailed);
      }
      ok := LoadZcl(zclProperties);
      r := if ok then Done else Failed(MetadataLoadFailed);
    }

    /** `zclLoader.loadZcl(db, propertiesFile)` */
    method LoadZcl(propertiesFile: string) returns (ok: bool)
      modifies this`trace
      ensures trace == old(trace) + [ZclLoaded(propertiesFile)] && ok == collab.zclLoadOk
    {
      Emit(ZclLoaded(propertiesFile));
      ok := collab.zclLoadOk;
    }

    /** `generatorEngine.loadTemplates(db, templateFile)`: its `error` and `packageId`. */
    method LoadTemplates(templateFile: string) returns (error: Option<string>, packageId: PackageId)
      modifies this`trace
      ensures trace == old(trace) + [TemplatesLoaded(templateFile)]
      ensures error == collab.templateError && packageId == collab.templatePackage
    {
      Emit(TemplatesLoaded(templateFile));
      error, packageId := collab.templateError, collab.templatePackage;
    }

    /** One input: import it, then report or export the session when the import succeeded. */
    method ProcessOne(job: Job, path: string) returns (imported: bool)
      modifies this`trace
      ensures imported <==> path in collab.imports
      ensures trace == old(trace) + [Imported(path)] + (if imported then PerFile(job, collab.imports[path]) else [])
    {
      var session := ImportDataFromFile(path);
      if session.None? {
        return false;
      }
      match job {
        case AnalyzeEach => Emit(Reported(session.value));
        case ConvertEach(output) => Emit(Exported(session.value, output));
      }
      imported := true;
    }

    /** `importJs.importDataFromFile(db, path)`; None when the import is rejected. */
    method ImportDataFromFile(path: string) returns (session: Option<SessionId>)
      modifies this`trace
      ensures trace == old(trace) + [Imported(path)]
      ensures session == if path in collab.imports then Some(collab.imports[path]) else None
    {
      Emit(Imported(path));
      session := if path in collab.imports then Some(collab.imports[path]) else None;
    }

    /** `querySession.createBlankSession(db)` */
    method CreateBlankSession() returns (session: SessionId)
      modifies this`trace
      ensures trace == old(trace) + [BlankSessionCreated(collab.blankSession)] && session == collab.blankSession
    {
      session := collab.blankSession;
      Emit(BlankSessionCreated(session));
    }

    /** `generatorEngine.generateAndWriteFiles(...)`: its `hasErrors`. */
    method GenerateAndWriteFiles(session: SessionId, packageId: PackageId, output: Option<string>) returns (hasErrors: bool)
      modifies this`trace
      ensures trace == old(trace) + [Generated(session, packageId, output)] && hasErrors == collab.generationHasErrors
    {
      Emit(Generated(session, packageId, output));
      hasErrors := collab.generationHasErrors;
    }

    /**
     * `executePromisesSequentially(paths, ...)`: import each input and run the
     * mode's step on its session, one input fully after the other.
     */
    method ProcessInputs(job: Job, paths: seq<string>) returns (r: RunResult)
      modifies this`trace
      ensures trace == old(trace) + ProcessAll(job, paths, collab).events
      ensures r == ProcessAll(job, paths, collab).result
    {
      ghost var done: seq<Event> := [];
      var i := 0;
      while i < |paths|
        invariant 0 <= i <= |paths|
        invariant trace == old(trace) + done
        invariant ProcessAll(job, paths, collab) == Then(Run(done, Done), ProcessAll(job, paths[i..], collab))
      {
        ProcessAllHead(job, paths, i, collab);
        ghost var rest := ProcessAll(job, paths[i + 1..], collab);
        var imported := ProcessOne(job, paths[i]);
        if !imported {
          done := done + [Imported(paths[i])];
          return Failed(ImportFailed(paths[i]));
        }
        ghost var step := [Imported(paths[i])] + PerFile(job, collab.imports[paths[i]]);
        ThenDoneAssoc(done, step, rest);
        done := done + step;
        i := i + 1;
      }
      r := Done;
    }

    /** Each input in order, then `app.quit` when asked for and there is an app. */
    method ProcessThenQuit(job: Job, paths: seq<string>, options: Options) returns (r: RunResult)
      modifies this`trace
      ensures var run := Then(ProcessAll(job, paths, collab), Run(QuitEvents(options, hasApp), Done));
        trace == old(trace) + run.events && r == run.result
    {
      r := ProcessInputs(job, paths);
      if r.Failed? {
        return;
      }
      ghost var afterProcess := trace;
      if options.quit && hasApp {
        Emit(Quit);
      }
      ThenTrace(old(trace), afterProcess, trace, ProcessAll(job, paths, collab), Run(QuitEvents(options, hasApp), Done));
    }

    /** `startSelfCheck`: store stages and templates; a template error is only reported. */
    method StartSelfCheck(options: Options) returns (r: RunResult)
      modifies this`trace, env, env.fs
      ensures var dbFile := SqlitePath(AppDirFor(old(env.applicationStateDirectory), env.homedir), SelfCheckStoreName);
        var run := SelfCheckRun(dbFile, dbFile in old(env.fs.nodes), argsGenTemplates, argsZclProperties, options, collab, hasApp);
        trace == old(trace) + run.events && r == run.result
      ensures StoreAcquired(SelfCheckStoreName, options.cleanDb)
      ensures env.explicitLoggerSet && env.logger == if old(env.explicitLoggerSet) then old(env.logger) else StdoutLogger
    {
      ghost var dbFile := SqlitePath(AppDirFor(old(env.applicationStateDirectory), env.homedir), SelfCheckStoreName);
      ghost var store := StoreStages(dbFile, dbFile in old(env.fs.nodes), options.cleanDb, argsZclProperties, collab);
      env.LogInitStdout();
      r := AcquireStore(SelfCheckStoreName, options.cleanDb, argsZclProperties);
      if r.Failed? {
        return;
      }
      ghost var afterStore := trace;
      CheckTemplates(options);
      r := Done;
      ThenTrace(old(trace), afterStore, trace, store, Run(SelfCheckTemplateEvents(argsGenTemplates, options, collab, hasApp), Done));
    }

    /** The template load of `startSelfCheck`, whose error is only reported. */
    method CheckTemplates(options: Options)
      modifies this`trace
      ensures trace == old(trace) + SelfCheckTemplateEvents(argsGenTemplates, options, collab, hasApp)
    {
      var error, packageId := LoadTemplates(argsGenTemplates);
      if options.log && error.Some? {
        Emit(Warning(error.value));
      }
      if options.quit && hasApp {
        Emit(Quit);
      }
    }

    /** `startAnalyze`: store stages, then import and report each path in order. */
    method StartAnalyze(paths: seq<string>, options: Options) returns (r: RunResult)
      modifies this`trace, env, env.fs
      ensures var dbFile := SqlitePath(AppDirFor(old(env.applicationStateDirectory), env.homedir), AnalysisStoreName);
        var run := AnalyzeRun(dbFile, dbFile in old(env.fs.nodes), paths, argsZclProperties, options, collab, hasApp);
        trace == old(trace) + run.events && r == run.result
      ensures StoreAcquired(AnalysisStoreName, options.cleanDb)
      ensures env.explicitLoggerSet == old(env.explicitLoggerSet) && env.logger == old(env.logger)
    {
      ghost var dbFile := SqlitePath(AppDirFor(old(env.applicationStateDirectory), env.homedir), AnalysisStoreName);
      ghost var store := StoreStages(dbFile, dbFile in old(env.fs.nodes), options.cleanDb, argsZclProperties, collab);
      r := AcquireStore(AnalysisStoreName, options.cleanDb, argsZclProperties);
      if r.Failed? {
        return;
      }
      ghost var afterStore := trace;
      r := ProcessThenQuit(AnalyzeEach, paths, options);
      ThenTrace(old(trace), afterStore, trace, store,
        Then(ProcessAll(AnalyzeEach, paths, collab), Run(QuitEvents(options, hasApp), Done)));
    }

    /** `startConvert`: store stages without cleaning, then import and export each file in order. */
    method StartConvert(files: seq<string>, output: string, options: Options) returns (r: RunResult)
      modifies this`trace, env, env.fs
      ensures var dbFile := SqlitePath(AppDirFor(old(env.applicationStateDirectory), env.homedir), ConvertStoreName);
        var run := ConvertRun(dbFile, dbFile in old(env.fs.nodes), files, output, argsZclProperties, options, collab, hasApp);
        trace == old(trace) + run.events && r == run.result
      ensures StoreAcquired(ConvertStoreName, false)
      ensures env.explicitLoggerSet == old(env.explicitLoggerSet) && env.logger == old(env.logger)
    {
      ghost var dbFile := SqlitePath(AppDirFor(old(env.applicationStateDirectory), env.homedir), ConvertStoreName);
      ghost var store := StoreStages(dbFile, dbFile in old(env.fs.nodes), false, argsZclProperties, collab);
      r := AcquireStore(ConvertStoreName, false, argsZclProperties);
      if r.Failed? {
        return;
      }
      ghost var afterStore := trace;
      r := ProcessThenQuit(ConvertEach(output), files, options);
      ThenTrace(old(trace), afterStore, trace, store,
        Then(ProcessAll(ConvertEach(output), files, collab), Run(QuitEvents(options, hasApp), Done)));
    }

    /** The input-resolution part of `startGeneration`, reading the file system. */
    method ResolveInput(zapFiles: Option<seq<string>>, options: Options) returns (resolved: Result<Option<string>, Error>)
      modifies this`trace
      ensures trace == old(trace) + ExtraInputWarning(zapFiles, options)
      ensures resolved == ResolveZapFile(env.fs.nodes, zapFiles)
    {
      var zapFile: Option<string> := None;
      if zapFiles.Some? && |zapFiles.value| > 0 {
        zapFile := Some(zapFiles.value[0]);
        if |zapFiles.value| > 1 && options.log {
          Emit(Warning(MultipleFilesWarning));
        }
      }
      if zapFile.Some? {
        if env.fs.Exists(zapFile.value) {
          if env.fs.IsDirectory(zapFile.value) {
            var usedFile := CollectZapFiles(zapFile.value, env.fs.ReadDir(zapFile.value));
            if |usedFile| == 0 {
              return Failure(NoZapFilesInDirectory(zapFile.value));
            } else if |usedFile| > 1 {
              return Failure(MultipleZapFilesInDirectory(zapFile.value));
            } else {
              zapFile := Some(usedFile[0]);
            }
          }
        } else {
          return Failure(FileNotFound(zapFile.value));
        }
      }
      resolved := Success(zapFile);
    }

    /** The session part of `startGeneration`: blank or imported session, then generation. */
    method SessionAndGenerateFiles(zapFile: Option<string>, packageId: PackageId, output: Option<string>,
                                   options: Options) returns (r: RunResult)
      requires packageId == collab.templatePackage
      modifies this`trace
      ensures var run := SessionAndGenerate(zapFile, output, options, collab, hasApp);
        trace == old(trace) + run.events && r == run.result
    {
      var sessionId: SessionId;
      if zapFile.None? {
        sessionId := CreateBlankSession();
      } else {
        var imported := ImportDataFromFile(zapFile.value);
        if imported.None? {
          return Failed(ImportFailed(zapFile.value));
        }
        sessionId := imported.value;
      }
      Emit(SessionPackagesInitialized(sessionId));
      var hasErrors := GenerateAndWriteFiles(sessionId, packageId, output);
      if hasErrors {
        return Failed(GenerationFailed);
      }
      if options.quit && hasApp {
        Emit(Quit);
      }
      r := Done;
    }

    /** The stages of `startGeneration` after the input is resolved. */
    method GenerateFrom(zapFile: Option<string>, output: Option<string>, templateFile: string,
                        zclProperties: string, options: Options) returns (r: RunResult)
      modifies this`trace, env, env.fs
      ensures var dbFile := SqlitePath(AppDirFor(old(env.applicationStateDirectory), env.homedir), GenerateStoreName);
        var run := GenerateResolved(zapFile, dbFile, dbFile in old(env.fs.nodes), output, templateFile,
                                    zclProperties, options, collab, hasApp);
        trace == old(trace) + run.events && r == run.result
      ensures StoreAcquired(GenerateStoreName, options.cleanDb)
      ensures env.explicitLoggerSet == old(env.explicitLoggerSet) && env.logger == old(env.logger)
    {
      ghost var dbFile := SqlitePath(AppDirFor(old(env.applicationStateDirectory), env.homedir), GenerateStoreName);
      ghost var store := StoreStages(dbFile, dbFile in old(env.fs.nodes), options.cleanDb, zclProperties, collab);
      if options.log {
        var versionLine := env.ZapVersionAsString();
      }
      r := AcquireStore(GenerateStoreName, options.cleanDb, zclProperties);
      if r.Failed? {
        return;
      }
      ghost var afterStore := trace;
      r := TemplatesAndGenerate(zapFile, output, templateFile, options);
      ThenTrace(old(trace), afterStore, trace, store,
        Then(TemplateStage(templateFile, collab), SessionAndGenerate(zapFile, output, options, collab, hasApp)));
    }

    /** Templates (fatal on error), then the session and generation. */
    method TemplatesAndGenerate(zapFile: Option<string>, output: Option<string>, templateFile: string,
                                options: Options) returns (r: RunResult)
      modifies this`trace
      ensures var run := Then(TemplateStage(templateFile, collab), SessionAndGenerate(zapFile, output, options, collab, hasApp));
        trace == old(trace) + run.events && r == run.result
    {
      var error, packageId := LoadTemplates(templateFile);
      if error.Some? {
        return Failed(TemplateLoadFailed(error.value));
      }
      ghost var afterTemplates := trace;
      r := SessionAndGenerateFiles(zapFile, packageId, output, options);
      ThenTrace(old(trace), afterTemplates, trace, TemplateStage(templateFile, collab),
        SessionAndGenerate(zapFile, output, options, collab, hasApp));
    }

    /** `startGeneration`: resolve the input, then the store, templates, session and generation. */
    method StartGeneration(output: Option<string>, templateFile: string, zclProperties: string,
                           zapFiles: Option<seq<string>>, options: Options) returns (r: RunResult)
      modifies this`trace, env, env.fs
      ensures var dbFile := SqlitePath(AppDirFor(old(env.applicationStateDirectory), env.homedir), GenerateStoreName);
        var run := GenerationRun(old(env.fs.nodes), dbFile, output, templateFile, zclProperties, zapFiles, options, collab, hasApp);
        trace == old(trace) + run.events && r == run.result
      ensures ResolveZapFile(old(env.fs.nodes), zapFiles).Failure? ==>
        env.fs.nodes == old(env.fs.nodes) && env.applicationStateDirectory == old(env.applicationStateDirectory) &&
        env.versionObject == old(env.versionObject) && env.dbInstance == old(env.dbInstance)
      ensures ResolveZapFile(old(env.fs.nodes), zapFiles).Success? ==> StoreAcquired(GenerateStoreName, options.cleanDb)
      ensures env.explicitLoggerSet == old(env.explicitLoggerSet) && env.logger == old(env.logger)
    {
      ghost var nodes := env.fs.nodes;
      var resolved := ResolveInput(zapFiles, options);
      if resolved.Failure? {
        r := Failed(resolved.error);
      } else {
        ghost var mid := trace;
        ghost var dbFile := SqlitePath(AppDirFor(env.applicationStateDirectory, env.homedir), GenerateStoreName);
        ghost var rest := GenerateResolved(resolved.value, dbFile, dbFile in nodes, output, templateFile,
                                           zclProperties, options, collab, hasApp);
        r := GenerateFrom(resolved.value, output, templateFile, zclProperties, options);
        ThenTrace(old(trace), mid, trace, Run(ExtraInputWarning(zapFiles, options), Done), rest);
      }
    }

    /** Logging set up from the command line, then the optional backup of the default store. */
    method Prelude(logToStdout: bool, clearDb: bool)
      modifies this`trace, env, env.fs
      ensures var dir := AppDirFor(old(env.applicationStateDirectory), env.homedir);
        trace == old(trace) + (if clearDb then [BackedUp(SqlitePath(dir, DefaultStoreName))] else [])
      ensures env.explicitLoggerSet &&
        env.logger == LoggerAfterPrelude(logToStdout, old(env.explicitLoggerSet), old(env.logger),
                                         AppDirFor(old(env.applicationStateDirectory), env.homedir))
      ensures env.dbInstance == old(env.dbInstance)
      ensures EnvState(env.applicationStateDirectory, env.fs.nodes, env.versionObject) ==
        PreludeState(logToStdout, clearDb, old(env.explicitLoggerSet),
                     EnvState(old(env.applicationStateDirectory), old(env.fs.nodes), old(env.versionObject)), env.homedir)
    {
      if logToStdout {
        env.LogInitStdout();
      } else {
        env.LogInitLogFile();
      }
      if clearDb {
        var dbFile := env.SqliteFile(DefaultStoreName);
        Emit(BackedUp(dbFile));
      }
    }

    /** The mode `cmd` selects, with default options; a failed generate ends in `process.exit(1)`. */
    method RunMode(cmd: Result<Command, Error>) returns (outcome: Outcome)
      modifies this`trace, env, env.fs
      ensures var launch := ModeRun(cmd, AppDirFor(old(env.applicationStateDirectory), env.homedir), old(env.fs.nodes),
                                    collab, hasApp, argsZclProperties, argsGenTemplates);
        trace == old(trace) + launch.events && outcome == launch.outcome
      ensures StoreUse(cmd, old(env.fs.nodes)).None? ==>
        env.fs.nodes == old(env.fs.nodes) && env.applicationStateDirectory == old(env.applicationStateDirectory) &&
        env.versionObject == old(env.versionObject)
      ensures StoreUse(cmd, old(env.fs.nodes)).Some? ==>
        StoreAcquired(StoreUse(cmd, old(env.fs.nodes)).value.0, StoreUse(cmd, old(env.fs.nodes)).value.1)
      ensures EnvState(env.applicationStateDirectory, env.fs.nodes, env.versionObject) ==
        ModeState(cmd, EnvState(old(env.applicationStateDirectory), old(env.fs.nodes), old(env.versionObject)),
                  env.homedir, env.packageJson, env.versionJson)
      ensures env.dbInstance == old(env.dbInstance)
      ensures env.explicitLoggerSet == (old(env.explicitLoggerSet) || cmd == Success(SelfCheckMode))
      ensures env.logger ==
        if !old(env.explicitLoggerSet) && cmd == Success(SelfCheckMode) then StdoutLogger else old(env.logger)
    {
      match cmd {
        case Failure(e) =>
          outcome := Aborted(e);
        case Success(SelfCheckMode) =>
          var r := StartSelfCheck(DefaultOptions);
          outcome := OutcomeOf(r);
        case Success(AnalyzeMode(files)) =>
          var r := StartAnalyze(files, DefaultOptions);
          outcome := OutcomeOf(r);
        case Success(ConvertMode(files, output)) =>
          var r := StartConvert(files, output, DefaultOptions);
          outcome := OutcomeOf(r);
        case Success(GenerateMode(output, template, properties, inputs)) =>
          var r := StartGeneration(output, template, properties, Some(inputs), DefaultOptions);
          if r.Failed? {
            Emit(Exit(1));
            outcome := Exited(1);
          } else {
            outcome := Completed;
          }
        case Success(NormalMode) =>
          outcome := Interactive;
        case Success(UiUnavailableMode) =>
          outcome := UiUnavailable;
      }
    }

    /** `startUp(isElectron)` on the parsed command line `argv`. */
    method StartUp(argv: Argv, isElectron: bool) returns (outcome: Outcome)
      modifies this`trace, env, env.fs
      ensures var dir := AppDirFor(old(env.applicationStateDirectory), env.homedir);
        var nodes := NodesAfterPrelude(argv.logToStdout, argv.clearDb, old(env.explicitLoggerSet),
                                       old(env.applicationStateDirectory), env.homedir, old(env.fs.nodes));
        var launch := StartUpRun(argv, isElectron, dir, nodes, collab, hasApp, argsZclProperties, argsGenTemplates);
        trace == old(trace) + launch.events && outcome == launch.outcome
      ensures env.explicitLoggerSet &&
        env.logger == LoggerAfterPrelude(argv.logToStdout, old(env.explicitLoggerSet), old(env.logger),
                                         AppDirFor(old(env.applicationStateDirectory), env.homedir))
      ensures EnvState(env.applicationStateDirectory, env.fs.nodes, env.versionObject) ==
        ModeState(Dispatch(argv, isElectron),
                  PreludeState(argv.logToStdout, argv.clearDb, old(env.explicitLoggerSet),
                               EnvState(old(env.applicationStateDirectory), old(env.fs.nodes), old(env.versionObject)),
                               env.homedir),
                  env.homedir, env.packageJson, env.versionJson)
      ensures env.dbInstance == old(env.dbInstance)
    {
      ghost var t0 := trace;
      ghost var loggerSet := env.explicitLoggerSet;
      ghost var before := EnvState(env.applicationStateDirectory, env.fs.nodes, env.versionObject);
      Prelude(argv.logToStdout, argv.clearDb);
      ghost var t1 := trace;
      ghost var middle := EnvState(env.applicationStateDirectory, env.fs.nodes, env.versionObject);
      var cmd := Dispatch(argv, isElectron);
      outcome := RunMode(cmd);
      PreludeKeepsDirectory(argv.logToStdout, argv.clearDb, loggerSet, before, env.homedir);
      StartUpComposes(argv, isElectron, AppDirFor(before.stateDirectory, env.homedir),
                      NodesAfterPrelude(argv.logToStdout, argv.clearDb, loggerSet, before.stateDirectory,
                                        env.homedir, before.nodes),
                      AppDirFor(middle.stateDirectory, env.homedir), middle.nodes, collab, hasApp,
                      argsZclProperties, argsGenTemplates, t0, t1, trace, outcome);
    }
  }
}
