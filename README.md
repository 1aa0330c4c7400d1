# The embedded interpreter's life cycle and the TBD version scan, in Dafny

This project models two pieces of PyOxidizer.

**`MainPythonInterpreter` (pyembed).** This is the one embedded CPython interpreter of a process.

- It moves through the states `NotStarted`, `Initializing`, `Initialized` and `Finalized`.
- It holds:
  - the global interpreter guard;
  - the installed raw allocator;
  - the GIL token `py` and a `GILGuard`;
  - the parsed resources that the oxidized importer points into.
- `init` brings CPython up as a fixed series of program points. Each point makes at most one call into the C runtime, depending on the configuration, and the run stops at the first call that fails.
- Before the bring-up, `init` installs a fresh copy of the built-in extension table (`set_pyimport_inittab`).
- `drop` can write the names in `sys.modules` to a `modules-<uuid>` file before `Py_FinalizeEx`.

**`parse_str` (text-stub library).** It splits a TBD file, which is a YAML stream, into documents. Each document's TBD version comes from the tag on its `---` start line:

- a line starting with `--- !tapi-tbd-v2` gives v2, and `--- !tapi-tbd-v3` gives v3;
- a line starting with `--- !tapi-tbd` but neither of those gives v4;
- any other `---` line gives v1.

If there is one marker fewer than documents, a bare first document is taken to be v1. Each document is then deserialised as its version, and the first error aborts the parse.

Calls into CPython are opaque steps, appended in order to the `calls` trace of a `Runtime` object. The caller passes in an outcome oracle `o: Step -> bool`, which decides whether each fallible call succeeds. Six steps cannot fail: the table rebuild, `PyMem_SetAllocator`, `PyMem_SetupDebugHooks`, taking the GIL, `Py_RunMain` and `Py_FinalizeEx`. Success for those steps does not depend on the oracle.

The model's form follows the source's form:

- The interpreter and the two `static mut` extension tables are classes whose methods update fields in place.
- The loops of the source are methods with loop invariants. These are the scan of the C table, the push loops, the `sys.modules` loop, the write loop, the line scan and the pairing loop.
- The bring-up is proved against a specification function. `Program(cfg)` lists the call of each program point, and `InitTrace`, `InitFailure` and `InitResult` say what a run does under `o`.

| file | contents |
|---|---|
| wrappers.dfy | `Option`, `Result` |
| python_runtime.dfy | extension-table records, the `Step` calls, the `Runtime` (trace, `PyImport_Inittab`, environment) |
| interpreter_config.dfy | the resolved configuration fields the life cycle consults |
| inittab.dfy | `set_pyimport_inittab` and its two static tables |
| bring_up.dfy | the program points of `init`, runs that stop at the first failure, ordering properties |
| modules_file.dfy | `write_modules_to_directory` |
| interpreter.dfy | `MainPythonInterpreter`: `new`, `init`, `acquire_gil`, `release_gil`, `py_runmain`, `drop` |
| text_lines.dfy | Rust's `str::lines` |
| text_stub.dfy | `parse_str` |

## Model

| member | source | states |
|---|---|---|
| Interpreter.MainPythonInterpreter.constructor | pyembed/src/interpreter.rs:145-153 | a new interpreter is `NotStarted` and holds no guard, allocator, GIL token, GIL guard or resources |
| Interpreter.MainPythonInterpreter.Init | pyembed/src/interpreter.rs:172-402 | `Initializing` is refused with "interpreter in initializing state" and nothing changes; `Initialized` is a no-op success; otherwise the calls made are exactly `InitTrace` and the result is `InitResult`; the guard is held iff the lock succeeded; `Initialized` and `py` iff every call up to the `meta_path` clean-up succeeded; once the run reaches the allocator point with a non-system backend configured, the allocator field holds that backend's allocator, and otherwise it keeps its previous value (`py_runmain` never clears it); resources are present iff creating them succeeded and are loaded iff loading succeeded; `TCL_LIBRARY` and the extension table change iff the lock succeeded |
| Interpreter.MainPythonInterpreter.Launch | pyembed/src/interpreter.rs:186-399 | the bring-up from a stopped state, with every field stated in terms of how far the run got |
| Interpreter.MainPythonInterpreter.TakeGuard | pyembed/src/interpreter.rs:186-191 | a failing lock stops `init` with "unable to acquire global interpreter guard" and changes no state; otherwise the state is `Initializing` with the guard held |
| Interpreter.MainPythonInterpreter.PrepareEnvironment | pyembed/src/interpreter.rs:195-199 | `TCL_LIBRARY` is set iff configured; the extension table is rebuilt and installed |
| Interpreter.MainPythonInterpreter.Start | pyembed/src/interpreter.rs:186-199 | guard, `TCL_LIBRARY` and extension table; on a lock failure nothing but the trace changes |
| Interpreter.MainPythonInterpreter.PreInitialize | pyembed/src/interpreter.rs:201-213 | pre-configuration then `Py_PreInitialize`; a failure stops the run at one of these two points |
| Interpreter.MainPythonInterpreter.InstallAllocator | pyembed/src/interpreter.rs:215-236 | the jemalloc or Rust allocator is stored and passed to `PyMem_SetAllocator`; the system backend stores and installs nothing |
| Interpreter.MainPythonInterpreter.InstallDebugHooks | pyembed/src/interpreter.rs:238-242 | `PyMem_SetupDebugHooks` runs iff a raw allocator is configured with `debug` |
| Interpreter.MainPythonInterpreter.InitializeCore | pyembed/src/interpreter.rs:245-262 | core configuration, `set_argv` when arguments resolve, then `Py_InitializeFromConfig`; a failure stops the run there |
| Interpreter.MainPythonInterpreter.Configure | pyembed/src/interpreter.rs:201-262 | once pre-initialisation succeeded with a non-system backend configured, the allocator field holds that backend's allocator; otherwise it keeps its previous value |
| Interpreter.MainPythonInterpreter.LoadPackedResources | pyembed/src/interpreter.rs:271-280 | with the oxidized importer, resources exist once created and are loaded once `load` succeeded; without it nothing happens |
| Interpreter.MainPythonInterpreter.InstallImporter | pyembed/src/interpreter.rs:282-296 | with the oxidized importer: import the module, then initialise the importer, stopping at a failure |
| Interpreter.MainPythonInterpreter.InitializeMain | pyembed/src/interpreter.rs:303-310 | `_Py_InitializeMain` runs; its failure stops the run with "initializing Python main" |
| Interpreter.MainPythonInterpreter.RemoveFilesystemImporter | pyembed/src/interpreter.rs:322-334 | with the filesystem importer disabled: import `sys`, get `meta_path`, pop it, stopping at a failure |
| Interpreter.MainPythonInterpreter.Import | pyembed/src/interpreter.rs:271-342 | `py` and `Initialized` are set exactly when every call from the importer to the `meta_path` clean-up succeeded |
| Interpreter.MainPythonInterpreter.SetSysAttributes | pyembed/src/interpreter.rs:344-399 | `sys.argvb`, `sys.oxidized`, `sys.frozen`, `sys._MEIPASS` in that order, each when configured (`oxidized` always), stopping at the first failure |
| Interpreter.MainPythonInterpreter.Finish | pyembed/src/interpreter.rs:271-399 | from the importer on: trace, result, state, `py` and resources in terms of the points reached |
| Interpreter.MainPythonInterpreter.Proceed | pyembed/src/interpreter.rs:201-399 | from pre-configuration on: trace, result, state, `py`, allocator and resources in terms of the points reached |
| Interpreter.MainPythonInterpreter.ReleaseGil | pyembed/src/interpreter.rs:404-409 | afterwards no GIL token and no GIL guard are held; the interpreter guard is kept, and the invariant holds |
| Interpreter.MainPythonInterpreter.AcquireGil | pyembed/src/interpreter.rs:412-439 | fails with the state's message unless `Initialized`; then a token is held, and the GIL is taken (one call) only when none was held |
| Interpreter.GilError | pyembed/src/interpreter.rs:413-425 | `acquire_gil` has an error in every state but `Initialized` |
| Interpreter.MainPythonInterpreter.PyRunMain | pyembed/src/interpreter.rs:451-462 | `Py_RunMain` is called and its exit code returned; the state is `Finalized` with guard, resources, token and GIL guard dropped |
| Interpreter.MainPythonInterpreter.DropAsWritten | pyembed/src/interpreter.rs:580-593 | with the modules variable set in any state but `Initialized`, drop panics with the `acquire_gil` error and never calls `Py_FinalizeEx`; otherwise it writes the list (errors ignored) and finalises |
| Interpreter.MainPythonInterpreter.Drop | pyembed/src/interpreter.rs:580-593 | corrected drop: writes the list only when `Initialized`, and always ends with exactly one `Py_FinalizeEx` |
| Interpreter.NewInterpreter | pyembed/src/interpreter.rs:128-163 | `TERMINFO_DIRS` set as resolved and left alone otherwise; success iff `init` succeeds, then a fresh `Initialized` interpreter after the whole plan; on failure, dropping the half-built interpreter with the corrected `Drop`, the `init` error after the trace and one `Py_FinalizeEx` |
| Interpreter.TerminfoSetting | pyembed/src/interpreter.rs:133-143 | `TERMINFO_DIRS` is left alone for `None` and for dynamic resolution that finds nothing; a static value is used as given; a dynamic one as resolved |
| Interpreter.PreInitFailureInNew | pyembed/src/interpreter.rs:155 | `new` with a failing `Py_PreInitialize` leaves an `Initializing` interpreter after four calls |
| Interpreter.PreInitFailureDropAsWritten | pyembed/src/interpreter.rs:584 | dropping it as written panics with "interpreter not fully initialized" and `Py_FinalizeEx` is never called |
| Interpreter.PreInitFailureDrop | pyembed/src/interpreter.rs:580-593 | with the corrected drop the trace ends in `Py_FinalizeEx` |
| BringUp.Slot | pyembed/src/interpreter.rs:186-399 | each program point makes at most one call, and only a call of its own point: the allocator when a non-system backend is configured, debug hooks with `debug`, `set_argv` when arguments resolve, the four importer calls with the oxidized importer, the three `meta_path` calls without the filesystem importer, `argvb`/`frozen`/`_MEIPASS` when configured; the lock, rebuild, pre-configuration, pre-initialisation, core configuration, core and main initialisation and `sys.oxidized` points always make theirs |
| BringUp.ProgramAt | pyembed/src/interpreter.rs:186-399 | the program lists, in point order, the slot of each point, so the plan of `init` follows the branch conditions of the source |
| BringUp.ErrorFor | pyembed/src/interpreter.rs:186-399 | the lock and the `sys` attributes fail with their own `Simple` message ("unable to set sys.<name>"), the resources state with its callee's message, the three initialisation phases with their PyStatus context, the importer and `meta_path` operations with their Python-exception context; configuration conversions and `set_argv` propagate their callee's error |
| BringUp.ErrorIdentifiesCall | pyembed/src/interpreter.rs:186-399 | distinct calls give distinct model errors. For the calls whose error `init` spells out itself, the error names the call that failed: the lock, the three PyStatus phases, the importer and `meta_path` operations and the `sys` attributes. For the five calls whose error comes from a callee, see "## Left out" |
| BringUp.ProgramStaged | pyembed/src/interpreter.rs:186-399 | every point makes at most one call, and only its own |
| BringUp.RunUntilFailureIsPrefix | pyembed/src/interpreter.rs:186-399 | the calls made are a prefix of the plan; only the last can have failed, and it did iff the run failed |
| BringUp.FirstFailureBound | pyembed/src/interpreter.rs:186-399 | the first failure is at or after a point iff no planned call of an earlier point fails |
| BringUp.RunKeepsOrder | pyembed/src/interpreter.rs:186-399 | a planned call of an earlier point than a call made was made before it and succeeded |
| BringUp.ReachedMeans | pyembed/src/interpreter.rs:186-399 | the run reached a point iff no planned call before it fails |
| BringUp.InitResultMeans | pyembed/src/interpreter.rs:186-399 | `init` succeeds iff no planned call fails, and then every planned call was made; on failure the error is that of the last call made |
| BringUp.InPlan | pyembed/src/interpreter.rs:186-399 | a call is planned iff its own point makes it under the configuration |
| BringUp.TraceKeepsPlanOrder | pyembed/src/interpreter.rs:186-399 | calls are made in program order, and an earlier planned call precedes and succeeded |
| BringUp.TraceOrdered | pyembed/src/interpreter.rs:186-399 | the trace is strictly increasing in program point |
| InterpreterConfig.AllocatorFor | pyembed/src/interpreter.rs:216-226 | the system backend stores no allocator; jemalloc stores the jemalloc allocator and Rust the Rust one, and only they do |
| InterpreterConfig.ConfiguredAllocator | pyembed/src/interpreter.rs:215-227 | an allocator is stored exactly when a raw allocator is configured with a non-system backend, and it is that backend's |
| BringUp.AllocatorPlanned | pyembed/src/interpreter.rs:215-242 | `PyMem_SetAllocator(k)` is planned iff the backend's allocator is `k`; debug hooks iff `debug` |
| BringUp.AllocatorBeforeCoreInit | pyembed/src/interpreter.rs:215-262 | once core initialisation is attempted, the allocator and debug hooks were installed, allocator first, both before it |
| BringUp.ImporterBetweenPhases | pyembed/src/interpreter.rs:256-310 | the importer is set up only after core initialisation succeeded, and main initialisation only after the importer succeeded |
| BringUp.MetaPathPopAfterMainInit | pyembed/src/interpreter.rs:303-334 | `meta_path.pop()` is planned iff the filesystem importer is disabled, and runs only after main initialisation succeeded |
| BringUp.SysAttributesPlanned | pyembed/src/interpreter.rs:344-399 | `sys.oxidized` always; `argvb`, `frozen`, `_MEIPASS` iff configured |
| BringUp.PreInitFailure | pyembed/src/interpreter.rs:201-213 | a failing `Py_PreInitialize` stops `init` after four calls with "Python pre-initialization" |
| Inittab.ScanInittab | pyembed/src/interpreter.rs:483-495 | the scan of the C table keeps exactly the records before the first null name |
| Inittab.NamedPrefixStopsAtSentinel | pyembed/src/interpreter.rs:485-493 | on a terminated table the scan is a proper prefix ending just before a null name, all named |
| Inittab.NamedPrefixOfTerminated | pyembed/src/interpreter.rs:521-530 | scanning named records followed by the sentinel gives the named records back |
| Inittab.EntriesOfInOrder | pyembed/src/interpreter.rs:511-519 | one named record per extra module, in configuration order |
| Inittab.InstalledTableShape | pyembed/src/interpreter.rs:499-530 | the installed table starts with the snapshot, ends with its only sentinel, and CPython's scan of it yields snapshot, importer record and extra modules |
| Inittab.ExtensionTables.constructor | pyembed/src/interpreter.rs:465-466 | both statics start out empty |
| Inittab.ExtensionTables.SetPyImportInittab | pyembed/src/interpreter.rs:478-532 | the snapshot is taken on first use only; the new table is snapshot + importer record (if enabled) + extra modules + sentinel, and `PyImport_Inittab` points at it |
| ModulesFile.Below | pyembed/src/interpreter.rs:559 | the order of `BTreeSet<String>`: a proper prefix comes first, and otherwise the first characters are in order |
| ModulesFile.BelowIrreflexive | pyembed/src/interpreter.rs:559 | no name is below itself |
| ModulesFile.BelowAsymmetric | pyembed/src/interpreter.rs:559 | two names are never below each other |
| ModulesFile.BelowTransitive | pyembed/src/interpreter.rs:559 | the order is transitive |
| ModulesFile.BelowTotal | pyembed/src/interpreter.rs:559 | any two distinct names are ordered |
| ModulesFile.Insert | pyembed/src/interpreter.rs:560-565 | inserting into the ordered set keeps it strictly increasing and adds exactly the new name |
| ModulesFile.NameSet | pyembed/src/interpreter.rs:559-565 | the names collected are strictly increasing and are exactly the `str` keys |
| ModulesFile.SortedUnique | pyembed/src/interpreter.rs:559 | a strictly increasing sequence is determined by its elements |
| ModulesFile.Listing | pyembed/src/interpreter.rs:569-572 | each name followed by `\n`: the content is empty iff there are no names, and otherwise ends in `\n` |
| ModulesFile.ListingIndependentOfOrder | pyembed/src/interpreter.rs:559-572 | the file content does not depend on the iteration order of `sys.modules` |
| ModulesFile.ListingReadsBack | pyembed/src/interpreter.rs:569-572 | reading the file back line by line gives the names written |
| ModulesFile.CollectNames | pyembed/src/interpreter.rs:559-565 | succeeds iff every key is a `str`, with the ordered name set, else "module name is not a str" |
| ModulesFile.WriteNames | pyembed/src/interpreter.rs:569-572 | writes names in order, stopping with "could not write" at the first failed write |
| ModulesFile.WriteModulesToDirectory | pyembed/src/interpreter.rs:539-576 | each failure in source order with its message; a file `modules-<uuid>` exists iff names were collected and it was created, holding the sorted distinct names written so far |
| ModulesFile.ListingExample | pyembed/src/interpreter.rs:559-572 | keys `b, a, a, c` give the content `a\nb\nc\n` |
| TextLines.Lines | text-stub-library/src/lib.rs:84 | Rust's `str::lines`: an empty text has no lines, a non-empty one at least one, and never more lines than characters |
| TextLines.LinesHaveNoNewline | text-stub-library/src/lib.rs:84 | no line of `str::lines` holds a `\n` |
| TextLines.LinesOfTerminated | text-stub-library/src/lib.rs:84 | cutting a `\n`-terminated line off the front yields that line, less a trailing `\r`, followed by the lines of the rest |
| TextStub.Classify | text-stub-library/src/lib.rs:87-96 | v2 iff the v2 tag is a prefix, v3 iff the v3 tag, v4 iff the v4 tag but neither other, v1 iff not even the v4 tag |
| TextStub.TagsNested | text-stub-library/src/lib.rs:61-63 | the v4 tag is a prefix of the v2 and v3 tags, which exclude each other, and every tag line is a marker |
| TextStub.MarkerIndices | text-stub-library/src/lib.rs:84-100 | the positions recorded are increasing, all marker lines, and every marker line is recorded |
| TextStub.MarkerVersionsSnoc | text-stub-library/src/lib.rs:84-100 | a further line adds its version exactly when it starts with `---` |
| TextStub.ScanMarkers | text-stub-library/src/lib.rs:82-100 | the scan loop computes the versions of the marker lines of `data.lines()` in order |
| TextStub.ReconcileAsWritten | text-stub-library/src/lib.rs:105-109 | as written, the count check panics exactly when there are no documents |
| TextStub.Reconcile | text-stub-library/src/lib.rs:102-109 | success iff the marker count equals the document count or is one less; then one version per document, v1 first when one less; otherwise `DocumentCountMismatch` |
| TextStub.ReconcileAgrees | text-stub-library/src/lib.rs:105-109 | with at least one document the code as written returns what `Reconcile` does |
| TextStub.EmptyStreamPanics | text-stub-library/src/lib.rs:105 | an empty text panics as written, where `Reconcile` gives no versions |
| TextStub.Decode | text-stub-library/src/lib.rs:111-126 | success iff every document deserialises, then one record per document with its version and body in order; otherwise the error of the first failing document |
| TextStub.DecodeDocuments | text-stub-library/src/lib.rs:111-126 | the pairing loop computes `Decode` |
| TextStub.ParseStr | text-stub-library/src/lib.rs:68-127 | `parse_str` computes scan error, reconciliation and pairing as `Parse` composes them |
| TextStub.ParseSucceeds | text-stub-library/src/lib.rs:102-126 | a successful parse has one record per document, v1 first when the first marker was missing, the scanned versions otherwise |

## Left out

- The conversions into `PyPreConfig` and `PyConfig` (interpreter.rs lines 202 and 245) are not modelled in detail. Their failures are outcomes of the `PreConfigFromConfig` and `PyConfigFromConfig` steps.
- NewInterpreter: the model's `Config` is already resolved. The resolution `config.try_into()?` at the start of `new` (line 131) is not modelled. When it fails, `new` returns its error before it makes any call, changes any environment variable, builds an interpreter or finalises, and the model has no such path.
- `resolve_terminfo_dirs` reads the file system. Its result is the `resolvedTerminfo` parameter of `NewInterpreter`.
- Process-level I/O is not modelled. This covers the blocking of the global mutex, the panic of `raw_jemallocator` in builds without the jemalloc feature, and the `eprintln!` of a failed modules write. The write's error is discarded, as the source does.
- The random UUID is a parameter. The directory named by the environment variable is not recorded: a written file is identified by its name `modules-<uuid>` only.
- What the GIL and `Py_RunMain` do inside CPython is not modelled. The GIL token and guard are only values.
- The contents of argv, of the packed resources and of the origin string are not modelled.
- Rust drops the fields after `drop` returns. That release (guard, GIL guard, resources) is not modelled.
- The YAML loader, the YAML emitter and `serde_yaml` are inputs. Loaded documents are given as their emitted text, and the deserialiser is a function parameter. The TBD payload types are the type parameter `B`.
- NewInterpreter: when `init` fails, it drops the half-built interpreter with the corrected `Drop`, returns the error and calls `Py_FinalizeEx`. The source does that only when the modules-list variable is unset or the state is `Initialized` (a failure at a `sys` attribute). When it is set and `init` stopped before `Initialized`, the `?` at line 155 drops the interpreter and the `unwrap` at line 584 panics: with "interpreter not initialized" after a failed lock, or "interpreter not fully initialized" later. `new` then returns nothing and never finalises. `PreInitFailureDropAsWritten` states that behaviour (see Findings).
- The messages that `PythonResourcesState::new_from_env` and `load` put into `NewInterpreterError::Simple` come from code that is not part of this model. `ErrorFor` records them as `SimpleFrom(step)`.
- ErrorIdentifiesCall: for five calls the error comes from a callee, so the source does not fix its value. These are the pre-configuration and core-configuration conversions and `set_argv`, which pass on the callee's error with `?`, and the resources state's `new_from_env` and `load`, whose message is wrapped in `Simple`. The model tags these errors with the failing step (`Propagated(step)`, `SimpleFrom(step)`). For them, distinctness comes from that tag, and in the source two of them could fail with equal errors.
- NewInterpreter: it states the trace, the result, the state, the GIL token and `TERMINFO_DIRS`. The other fields of the new interpreter are as `Init` states them and are not repeated.
- The repository's test walks Xcode SDK directories, so it is file-system I/O.

## Findings

| source | as written | input that shows it | evidently intended | confidence | as-written member | corrected member |
|---|---|---|---|---|---|---|
| text-stub-library/src/lib.rs:105 | `document_versions.len() == yamls.len() - 1` subtracts from an unsigned length | the text `""`: the loader yields no documents and there are no marker lines, so `0 - 1` panics in builds with overflow checks | an empty stream parses to no records (what a wrapping build returns) | medium; not executed | TextStub.EmptyStreamPanics | TextStub.Reconcile |
| pyembed/src/interpreter.rs:584 | `self.acquire_gil().unwrap()` in `drop` | `new` with the modules-list variable set and a failing `Py_PreInitialize`: the half-built interpreter is `Initializing`, so `drop` panics and `Py_FinalizeEx` never runs | write the list only when the GIL can be had, and always finalise | medium; not executed | Interpreter.PreInitFailureDropAsWritten | Interpreter.MainPythonInterpreter.Drop |
