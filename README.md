# Headless startup, environment and cluster component lookup of ZAP

This project models the startup core of ZAP, the ZCL Advanced Platform tool, in Dafny. It covers three parts.

- **Startup** (`startup.dfy`, from `startup.js`). The command line selects a mode in a fixed order: `selfCheck`, `analyze`, `convert`, `generate`, then the UI. Each mode validates its arguments. The generate input is resolved: a file, a directory holding exactly one `.zap`/`.ZAP` file, or an empty configuration. Self-check, analyze, convert and generate then run their stages in order. Every mode except convert deletes the old store file first when asked, then initialises the schema and loads the ZCL metadata. Analyze and convert then import each input in turn, reporting or exporting it. Self-check loads the templates and then quits when asked and an app exists. Generate loads the templates, opens a session and generates. Each stage has its own failure policy: a template error is fatal in generate and only a warning in self-check; generator errors fail generate and skip `app.quit()`; a failed generate started from the command line ends in `process.exit(1)`.
- **Environment** (`env.dfy`, from `env.js`). This covers the version-compatibility check and the memoised state directory, including its default `~/.zap` and the creation of the directory. It also covers store-file naming (`<dir>/<name>.sqlite`), the memoised version object and its one-line rendering, the "first explicit logger wins" rule, and the main-database handle.
- **Cluster component lookup** (`zcl.dfy`, from `zcl.js`). `getComponentIdsByCluster` takes the session's first generation-template package and reads its cluster extensions. For each side, in order, it looks up `lower(label)-side`, splits the hit on commas, trims each piece and appends the pieces. Any failed query resolves to no result.

The model's structure follows the source:

- `Files.FileSystem` is the file system the code reads and changes. It is a class over a map from path to file or directory.
- `Env.Environment` is a class. Its fields are the module-level variables of `env.js`: `applicationStateDirectory`, `explicit_logger_set`, the logger, `versionObject` and `dbInstance`.
- `Startup.Pipeline` is a class holding the environment, the collaborators' answers and a trace of events. Each mode is a method whose `ensures` ties the new trace to a specification function: `SelfCheckRun`, `AnalyzeRun`, `ConvertRun`, `GenerationRun` or `StartUpRun`. The lemmas state what the source promises about those functions.
- The database layer, the ZCL loader, the template loader, import/export and the generator are collaborators. Their answers are the fields of `Startup.Collaborators`. Each call to one of them appends an `Event` to the trace and returns its scripted answer.

The directory scan and `isMatchingVersion` are `forEach` loops in the source, and they are loops here too. So is `getComponentIdsByCluster`. The directory scan and `getComponentIdsByCluster` loops are proved against recursive functions (`ZapFilesIn`, `IdsForSides`). The `isMatchingVersion` loop is proved against an existential predicate (`MatchesSome`).

JavaScript semantics are written out where they matter:

- `split` with a one-character separator keeps empty pieces.
- `trim` strips the ECMAScript white-space and line-terminator set.
- `path.join` of a directory and a name is `dir + "/" + name`.
- A template literal shows a missing field as `undefined`.
- An empty extension value is falsy, so it counts as no hit.

Where the prose description and the code disagree, the code is followed:

- The directory scan is case-sensitive. It accepts the suffixes `.zap` and `.ZAP` only, not `.Zap` (`Startup.SuffixIsCaseSensitive`).
- The comment above `isMatchingVersion` (`env.js:242`) says it returns true when the components *differ*. The body returns true when some expected version *matches*. The body is modelled.

## Model

| member | source | states |
|---|---|---|
| Text.Split | src-electron/ide-integration/zcl.js:70 | `s.split(sep)` gives one piece more than there are separators, and no piece contains the separator |
| Text.SplitJoin | src-electron/ide-integration/zcl.js:70 | joining the pieces of `split` with the separator gives back the original string |
| Text.ToLower | src-electron/ide-integration/zcl.js:63 | `toLowerCase` keeps the length and lowers each ASCII capital in place |
| Text.Trim | src-electron/ide-integration/zcl.js:70 | `trim` keeps only characters of its input, and a non-empty result starts and ends with a non-space |
| Text.TrimSlice | src-electron/ide-integration/zcl.js:70 | `trim` cuts white space from the two ends only: the result is a contiguous slice of the input, with nothing but white space before and after it |
| Files.EnsureDir | src-electron/util/env.js:98-102 | after `mkdirSync` when the path is missing, the directory exists and no other path appears or disappears; every existing path keeps its contents, and a newly created directory is empty |
| Files.FileSystem.MakeDirectory | src-electron/util/env.js:98-102 | the file system afterwards is `EnsureDir` of the one before |
| Files.FileSystem.Unlink | src-electron/main-process/startup.js:162 | `fs.unlinkSync(p)` of an existing path removes exactly that path |
| Env.IsMatchingVersion | src-electron/util/env.js:243-258 | true exactly when some expected version has three components, each `x` or equal to the provided one's; never true for an empty list or a provided version without three components |
| Env.VersionsCheck | src-electron/util/env.js:267-302 | false exactly when the Node version is not accepted, or an Electron version is present and not accepted |
| Env.NodeFourteenAccepted | src-electron/util/env.js:268-277 | every `v14.<minor>.<patch>` is accepted |
| Env.NodeTwelveThirteenRejected | src-electron/util/env.js:268-277 | no `v12.13.<patch>` is accepted (12.14 is the oldest Node 12 listed) |
| Env.ElectronNinePointThree | src-electron/util/env.js:278 | Electron `9.3.<patch>` is accepted and `9.4.<patch>` is not |
| Env.SqlitePathInjective | src-electron/util/env.js:133-135 | two store names give the same store file only if they are equal |
| Env.StoreFilesDistinct | src-electron/util/env.js:133-135 | the default, convert, analysis, self-check and generate stores are five different files |
| Env.SqlitePathIsNotDir | src-electron/util/env.js:133-135 | a store file is never the state directory itself |
| Env.VersionStringFallback | src-electron/util/env.js:150-172 | with no readable package.json the version line starts `ver. 0.0.0, featureLevel 0` |
| Env.Environment.constructor | src-electron/util/env.js:57-61 | at load time there is no state directory, no explicit logger, no version object and no database handle |
| Env.Environment.SetAppDirectory | src-electron/util/env.js:91-104 | a leading `~/` is expanded against the home directory; the directory is created if missing and becomes the state directory |
| Env.Environment.AppDirectory | src-electron/util/env.js:111-123 | answers the memoised directory; the first call without one picks `<home>/.zap`, creating it if missing |
| Env.Environment.SqliteFile | src-electron/util/env.js:133-135 | `<appDirectory()>/<name>.sqlite`, with `appDirectory()`'s effect on the state |
| Env.Environment.ZapVersion | src-electron/util/env.js:161-184 | the memoised object, or one computed from package.json (falling back to `0.0.0` and level 0) and .version.json (fields left undefined) |
| Env.Environment.ZapVersionAsString | src-electron/util/env.js:150-153 | `ver. V, featureLevel F, commit: H from D` for the memoised version object |
| Env.Environment.LogInitStdout | src-electron/util/env.js:190-195 | the first explicit logger choice sticks; otherwise logging goes to stdout |
| Env.Environment.LogInitLogFile | src-electron/util/env.js:215-220 | the first explicit logger choice sticks; otherwise logging goes to `<appDirectory()>/zap.log`, which resolves the state directory |
| Env.MainDatabaseIsLastResolved | src-electron/util/env.js:73-82 | `mainDatabase()` answers the handle before any call, then the handle most recently passed to `resolveMainDatabase` |
| Env.Environment.ResolveMainDatabase | src-electron/util/env.js:77-82 | passes the handle on and `mainDatabase()` answers it afterwards |
| Env.StateDirectoryIsSticky | src-electron/util/env.js:91-135 | after `setAppDirectory(p)`, every `appDirectory()` answers the expanded `p` and the store files are built under it |
| Env.VersionIsMemoised | src-electron/util/env.js:150-184 | two `zapVersion()` calls give the same object, and the version line renders that object |
| Env.LoggerIsSticky | src-electron/util/env.js:190-220 | `logInitStdout()` followed by `logInitLogFile()` keeps the stdout logger and does not touch the state directory |
| Startup.SuffixIsCaseSensitive | src-electron/main-process/startup.js:268 | `.zap` and `.ZAP` pass the directory filter; `.Zap` and `.zap.bak` do not |
| Startup.ZapFilesInSpec | src-electron/main-process/startup.js:265-271 | the scan yields one joined path per matching entry, and a path is collected exactly when some matching entry joins to it |
| Startup.ZapCountZero | src-electron/main-process/startup.js:272-275 | the scan is empty exactly when no entry matches |
| Startup.ZapCountMany | src-electron/main-process/startup.js:276-281 | the scan has two or more paths exactly when two different entries match |
| Startup.ZapFilesInSingle | src-electron/main-process/startup.js:282-285 | with exactly one matching entry the scan yields exactly its joined path |
| Startup.CollectZapFiles | src-electron/main-process/startup.js:265-271 | the `forEach` loop collects exactly the scan's paths, in listing order |
| Startup.ResolveDirectory | src-electron/main-process/startup.js:263-285 | a directory fails with "no zap files" exactly when nothing matches, fails with "multiple zap files" exactly when two entries match, and otherwise resolves to its single match |
| Startup.ResolveOnlyFirst | src-electron/main-process/startup.js:254-259 | only `zapFiles[0]` affects resolution; null and empty lists mean an empty configuration |
| Startup.ResolvePath | src-electron/main-process/startup.js:260-292 | a missing path fails with "file not found"; an existing plain file is used as given |
| Startup.StoreStagesCleanFirst | src-electron/main-process/startup.js:196-201 | with the clean flag, an existing store file is unlinked before the schema is initialised, and the schema never sees an old file |
| Startup.ResolveZapFile | src-electron/main-process/startup.js:254-295 | the result is an empty configuration exactly when no first input is given; every failure names the first input and is "file not found", "no zap files" or "multiple zap files" |
| Startup.ResolutionMessageNamesInput | src-electron/main-process/startup.js:272-292 | the message thrown for every resolution error ends with the first input's path, and the "not found", "no zap files" and "multiple zap files" messages for one path are all different |
| Startup.ProcessAllImportsInOrder | src-electron/main-process/startup.js:128-138 | when every import resolves, the run completes and the inputs are imported exactly in the given order |
| Startup.ProcessAllOneAtATime | src-electron/main-process/startup.js:172-186 | when every import resolves, the run has two events per input: input k is imported as event 2k, and its report or export is event 2k + 1 |
| Startup.ProcessAllInOrder | src-electron/main-process/startup.js:128-186 | when every import resolves, the run completes with 2·n events for n inputs; input k is imported as event 2k and reported or exported as event 2k + 1, so each input is handled completely before the next one starts |
| Startup.ProcessAllStopsAtFailure | src-electron/main-process/startup.js:128-138 | a rejected import of input k fails the run with that error, and no later input is imported |
| Startup.ConvertLastInputWins | src-electron/main-process/startup.js:128-138 | convert exports every input to the same output, so the last export is that of the last input |
| Startup.GenerationInputErrorIsEarly | src-electron/main-process/startup.js:260-295 | an input that does not resolve fails generate with that error before any store, template or session stage |
| Startup.GenerationUsesFirstInput | src-electron/main-process/startup.js:254-259 | generate with several inputs runs as with the first alone, plus one warning when logging |
| Startup.GenerationCleansBeforeInit | src-electron/main-process/startup.js:298-304 | in generate with the clean flag, an existing store file is unlinked before the schema is initialised |
| Startup.GenerationTemplateErrorIsFatal | src-electron/main-process/startup.js:306-309 | a template error fails generate with that error; no session is created or imported, nothing is generated, and there is no quit |
| Startup.SelfCheckTemplateErrorIsWarning | src-electron/main-process/startup.js:210-219 | in self-check a template error is only a warning: the run completes, it warns when logging, and it quits exactly when asked and an app exists |
| Startup.GenerationErrorsSuppressQuit | src-electron/main-process/startup.js:331-332 | generator errors fail generate with "Generation failed." and `app.quit()` is never reached |
| Startup.GenerationSuccess | src-electron/main-process/startup.js:296-332 | generate completes exactly when the input resolves, every collaborator succeeds and the generator reports no errors; it then generates into the imported or blank session and quits exactly when asked |
| Startup.GenerateResolvedSuccess | src-electron/main-process/startup.js:298-332 | once the input is resolved, generate completes exactly when the store, the templates, the import and the generator all succeed; it then generates into the imported or blank session and quits exactly when asked |
| Startup.Dispatch | src-electron/main-process/startup.js:362-392 | the only dispatch errors are "no zap file given" and "no output given"; convert writes to the output given on the command line |
| Startup.DispatchPrecedence | src-electron/main-process/startup.js:362-392 | the precedence is `selfCheck`, then analyze, then convert, then generate, each with its own arguments; dispatch fails exactly when analyze or convert lacks its inputs or convert lacks an output; UI or no-UI is chosen exactly when no mode word is given |
| Startup.StartUpGenerateFailureExits | src-electron/main-process/startup.js:373-382 | a generate started from the command line either completes or ends with `process.exit(1)` as its last event; generator errors always exit 1 without quitting |
| Startup.Pipeline.RemoveStoreFile | src-electron/main-process/startup.js:162 | the old store file is unlinked, with an `Unlinked` event, and no other path changes |
| Startup.Pipeline.InitDatabaseAndLoadSchema | src-electron/main-process/startup.js:165-166 | the schema stage records whether the store file exists, answers the database layer's outcome, and memoises the version object |
| Startup.Pipeline.AcquireStore | src-electron/main-process/startup.js:158-170 | the store file is `<appDirectory()>/<name>.sqlite`; with the clean flag an existing file is unlinked first; then the schema and the metadata load run; the trace and result are `StoreStages`' and the logger is untouched |
| Startup.Pipeline.LoadZcl | src-electron/main-process/startup.js:170 | `loadZcl` records which properties file it loaded and answers the metadata loader's outcome |
| Startup.Pipeline.LoadTemplates | src-electron/main-process/startup.js:208 | `loadTemplates` records the template file and answers the loader's `error` and `packageId` |
| Startup.Pipeline.ImportDataFromFile | src-electron/main-process/startup.js:130 | `importDataFromFile` records the import and answers the input's session, or no session when the import is rejected |
| Startup.Pipeline.CreateBlankSession | src-electron/main-process/startup.js:313 | `createBlankSession` records and answers the blank session |
| Startup.Pipeline.GenerateAndWriteFiles | src-electron/main-process/startup.js:318-329 | `generateAndWriteFiles` records the session, template package and output it generated from, and answers the generator's `hasErrors` |
| Startup.Pipeline.ProcessOne | src-electron/main-process/startup.js:173-181 | one input: an import, then the report or export when the import resolves |
| Startup.Pipeline.ProcessInputs | src-electron/main-process/startup.js:128-138 | the sequential loop over the inputs produces exactly `ProcessAll`'s trace and result |
| Startup.Pipeline.ProcessThenQuit | src-electron/main-process/startup.js:172-186 | the inputs in order, then `app.quit()` when asked for and an app exists; the trace and result are `ProcessAll`'s followed by the quit |
| Startup.Pipeline.CheckTemplates | src-electron/main-process/startup.js:208-220 | the self-check template load: a template error is logged as a warning, never fatal, then the quit |
| Startup.Pipeline.StartSelfCheck | src-electron/main-process/startup.js:192-225 | the trace and result are `SelfCheckRun`'s; the self-check store ends up acquired, and cleaned when `options.cleanDb` is set; logging goes to stdout unless a logger is already chosen |
| Startup.Pipeline.StartAnalyze | src-electron/main-process/startup.js:154-187 | the trace and result are `AnalyzeRun`'s, and the analysis store ends up acquired |
| Startup.Pipeline.StartConvert | src-electron/main-process/startup.js:113-146 | the trace and result are `ConvertRun`'s, and the convert store ends up acquired but never cleaned |
| Startup.Pipeline.ResolveInput | src-electron/main-process/startup.js:254-295 | resolution reads the file system only: it yields `ResolveZapFile` and emits at most the extra-input warning |
| Startup.Pipeline.SessionAndGenerateFiles | src-electron/main-process/startup.js:312-332 | a blank session or the imported one, its packages initialised, then generation; the trace and result are `SessionAndGenerate`'s |
| Startup.Pipeline.TemplatesAndGenerate | src-electron/main-process/startup.js:307-332 | the template load, fatal on error, then the session and generation; the trace and result are `TemplateStage` followed by `SessionAndGenerate` |
| Startup.Pipeline.GenerateFrom | src-electron/main-process/startup.js:296-332 | after resolution the trace and result are `GenerateResolved`'s, and the generate store ends up acquired |
| Startup.Pipeline.StartGeneration | src-electron/main-process/startup.js:236-333 | the trace and result are `GenerationRun`'s; a failed resolution leaves the state directory, file system and version object untouched |
| Startup.Pipeline.Prelude | src-electron/main-process/startup.js:351-360 | logging is set up from `logToStdout` and the default store is backed up when `clearDb` is given, which resolves the state directory when needed; the state directory, file system and version object become `PreludeState`'s |
| Startup.Pipeline.RunMode | src-electron/main-process/startup.js:362-393 | the selected mode runs with default options and yields `ModeRun`'s trace and outcome; the state directory, file system and version object become `ModeState`'s, so modes that touch no store leave them unchanged; self-check switches logging to stdout exactly when no logger was chosen before |
| Startup.Pipeline.StartUp | src-electron/main-process/startup.js:348-393 | the whole startup produces `StartUpRun`'s trace and outcome; the logger is the first explicit choice; the final state directory, file system and version object are `ModeState` of the dispatched mode applied to `PreludeState` of the initial state |
| Zcl.Pieces | src-electron/ide-integration/zcl.js:70 | a hit gives one id more than it has commas |
| Zcl.PiecesTrimmed | src-electron/ide-integration/zcl.js:70 | each id of a hit is comma-free and trimmed |
| Zcl.PiecesExample | src-electron/ide-integration/zcl.js:70 | `"a, b"` splits and trims to `a` and `b` |
| Zcl.GetComponentIdsByCluster | src-electron/ide-integration/zcl.js:35-88 | the promise chain and the `forEach` over the sides give exactly `ComponentIdsFor` |
| Zcl.IdsForSidesAppend | src-electron/ide-integration/zcl.js:61-73 | the ids for sides `a + b` are a's ids followed by b's, so side order is kept |
| Zcl.RepeatedSideRepeatsIds | src-electron/ide-integration/zcl.js:62-72 | a side given twice contributes its ids twice: duplicates are kept |
| Zcl.IdsForSidesLength | src-electron/ide-integration/zcl.js:62-73 | the number of ids is the sum, over the sides with a hit, of the hit's comma count plus one |
| Zcl.IdsForSidesTrimmed | src-electron/ide-integration/zcl.js:69-72 | every id is comma-free and trimmed |
| Zcl.NoHitsNoIds | src-electron/ide-integration/zcl.js:69 | sides with no hit, or an empty hit, contribute nothing |
| Zcl.ResultShape | src-electron/ide-integration/zcl.js:39-87 | a result exists exactly when every query succeeds and the cluster is found; it carries the cluster's own id, its lowered label and the sides unchanged, the ids are counted as above, and the package read is the session's first |
| Zcl.IdsIgnoreLabelCase | src-electron/ide-integration/zcl.js:61-73 | the component ids found for a cluster do not depend on the case of ASCII letters in its label |
| Zcl.OnOffServerExample | src-electron/ide-integration/zcl.js:62-72 | the hit `"a, b"` for the server side of `On/off` gives the ids `a` and `b` |

## Left out

- `startNormal`, the UI and HTTP server, `logHttpServerUrl`, `urlLogFile` and `baseUrl` are interactive or networked. A normal start is only the `Interactive` outcome; the default store that `startNormal` opens (`startup.js:46-52`) is not modelled.
- The bodies of the database layer (`initDatabaseAndLoadSchema`, SQLite), the ZCL loader, the template loader, import/export, `sessionReport`, `initializeSessionPackage` and the generator are not modelled. Their answers are inputs in `Collaborators`. Schema initialisation is modelled as not creating the store file.
- `util.executePromisesSequentially` is not part of this model. It is taken to run the inputs one after another and to stop at the first rejected import.
- `util.createBackupFile` (behind `clearDatabaseFile`) is not part of this model. The backup is a `BackedUp` event, and the file system is unchanged.
- Export and report are taken never to reject.
- `Collaborators.imports` maps each path to one session, so an input listed twice imports into the same session id both times. `importDataFromFile` opens a new session on every call, so the source would give two different sessions.
- `Collaborators.templateError` is `Some(e)` only for a truthy `ctx.error` (`startup.js:212`, `307`). An empty error string is falsy in JavaScript and is written `None`.
- A rejected `loadTemplates` promise is not modelled; only a template load that resolves with errors is. In self-check the rejection would reach the `.catch` at `startup.js:221-224`, be logged and be rethrown. In generate it would reject `startGeneration`, and `startUp` would then end in `process.exit(1)` (`startup.js:379-381`).
- A rejected `createBlankSession`, `initializeSessionPackage` or `generateAndWriteFiles` (`startup.js:313-318`) is not modelled. A rejected import at that point is modelled (`ImportFailed`), and so are generator errors that are reported rather than thrown. Each rejection would reject `startGeneration`, and a generate started from the command line would then end in `process.exit(1)` (`startup.js:379-381`).
- A throwing `fs.mkdirSync` (`env.js:99`) or `fs.unlinkSync` (`startup.js:162`, `198`, `299`) is not modelled: file-system calls are taken to succeed. A throw would abort the running mode, and a generate started from the command line would end in `process.exit(1)`.
- Console output is not modelled, except for the multiple-inputs warning and the self-check template warning, which are events. `logError` and the pino logger's output are not modelled either. The logger is only which destination was chosen.
- `args.processCommandLineArguments` is not part of this model. `Startup.Argv` is its result. The `noUi`, `showUrl`, `uiMode` and `embeddedMode` options only matter to the UI.
- `process.version` and `process.versions.electron` are parameters of `Env.VersionsCheck`. `os.homedir()` and the contents of package.json and .version.json are fields fixed when the environment is created.
- Files.FileSystem.MakeDirectory: `mkdirSync(..., { recursive: true })` creates only the directory itself, not missing parents, and directory listings are not updated by `mkdir` or `unlink`.
- Text.ToLower: `toLowerCase` lowers ASCII letters only, so labels with non-ASCII capitals are not lowered as JavaScript would lower them.
- Zcl.GetComponentIdsByCluster: the body of `sdkExt.cluster_extension_obj` is not part of this model. The lookup is a map from (property, key) to string. A non-string value, or an exception thrown inside the loop, is not modelled.
- `setDevelopmentEnv`, `setProductionEnv`, `iconsDirectory` and `sqliteTestFile` set static paths used only by the UI and the tests.
- `schemaFile` gives the path of the SQL schema that every mode passes to `initDatabaseAndLoadSchema`. The database layer's body is not modelled, so that path is not either.
- The `options` argument of the start functions is modelled only as passed by `startUp`, which uses the defaults. `startConvert` never reads `cleanDb` (`startup.js:113-146`), so convert never cleans, whatever the options.
