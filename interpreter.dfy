/**
  `MainPythonInterpreter`: the one embedded interpreter of the process, its
  life-cycle state, and the handles it owns.  The global interpreter mutex is
  modelled by `guardHeld`, the GIL by the `py` token and the `gil` guard.
*/
module Interpreter {
  import opened Wrappers
  import opened PythonRuntime
  import opened InterpreterConfig
  import opened Inittab
  import opened BringUp
  import opened ModulesFile

  datatype InterpreterState = NotStarted | Initializing | Initialized | Finalized

  /** The `Python<'python>` token: this thread holds the GIL. */
  datatype Python = Python

  /** A `GILGuard` taken by `acquire_gil`. */
  datatype GilGuard = GilGuard

  /** The parsed resources the importer points into; `loaded` once `load` succeeded. */
  datatype ResourcesState = ResourcesState(loaded: bool)

  /** How `drop` ended: normally, or by a panic carrying the unwrapped error. */
  datatype DropOutcome = Completed | Panicked(message: string)

  newtype int32 = x: int | -0x8000_0000 <= x < 0x8000_0000

  /** The modules-list variable is configured and set in the environment. */
  predicate WantsModulesFile(cfg: Config, env: map<string, string>)
  {
    cfg.writeModulesDirectoryEnv.Some? && cfg.writeModulesDirectoryEnv.value in env
  }

  class MainPythonInterpreter {
    const config: Config
    /** The process-wide CPython runtime. */
    const runtime: Runtime
    /** The process-wide shadow extension tables. */
    const tables: ExtensionTables

    var state: InterpreterState
    var guardHeld: bool
    var rawAllocator: Option<RawAllocatorKind>
    var gil: Option<GilGuard>
    var py: Option<Python>
    var resourcesState: Option<ResourcesState>

    ghost predicate Valid()
      reads this, runtime`inittab, tables
    {
      && tables.Valid()
      && (tables.original.None? ==> Terminated(runtime.inittab))
      && ((state == NotStarted || state == Finalized) ==>
            !guardHeld && py.None? && gil.None? && resourcesState.None?)
      && ((state == Initializing || state == Initialized) ==> guardHeld)
      && (py.Some? ==> state == Initialized)
      && (gil.Some? ==> py.Some?)
      && (rawAllocator.Some? ==> rawAllocator == ConfiguredAllocator(config))
      && (resourcesState.Some? ==> config.oxidizedImporter)
      && (state == Initialized ==>
            resourcesState == if config.oxidizedImporter then Some(ResourcesState(true)) else None)
    }

    /** The struct literal in `new`: nothing started, nothing held. */
    constructor (config: Config, runtime: Runtime, tables: ExtensionTables)
      requires tables.Valid()
      requires tables.original.None? ==> Terminated(runtime.inittab)
      ensures Valid()
      ensures this.config == config && this.runtime == runtime && this.tables == tables
      ensures state == NotStarted && !guardHeld && rawAllocator.None? && gil.None? && py.None?
      ensures resourcesState.None?
    {
      this.config := config;
      this.runtime := runtime;
      this.tables := tables;
      state := NotStarted;
      guardHeld := false;
      rawAllocator := None;
      gil := None;
      py := None;
      resourcesState := None;
    }

    // -------------------------------------------------------------------------
    // init

    /**
      Bring-up has got to point `st` of `init`, started with trace `c0`: the calls
      still to come are those of the plan from `st` on, and no earlier call failed.
    */
    ghost predicate Pending(c0: seq<Step>, st: nat, o: Step -> bool)
      reads runtime`calls
    {
      && c0 + InitTrace(config, o) == runtime.calls + RunUntilFailure(Program(config), st, o)
      && InitFailure(config, o) == FirstFailure(Program(config), st, o)
    }

    /** Make call `s` of point `st` and report its failure as `init` does. */
    method Perform(st: Stage, s: Step, ghost c0: seq<Step>, o: Step -> bool) returns (r: Result<(), NewInterpreterError>)
      requires st < Done && Program(config)[st] == [s]
      requires Pending(c0, st, o)
      modifies runtime`calls
      ensures r.Success? ==> Pending(c0, st + 1, o)
      ensures r.Failure? ==>
                && runtime.calls == c0 + InitTrace(config, o)
                && InitFailure(config, o) == Some(st)
                && r == Failure(ErrorFor(s))
                && r == InitResult(config, o)
      ensures r.Failure? <==> Fails(o, s)
    {
      RunStep(Program(config), st, o, s);
      ghost var before := runtime.calls;
      runtime.Call(s);
      assert before + ([s] + RunUntilFailure(Program(config), st + 1, o))
          == runtime.calls + RunUntilFailure(Program(config), st + 1, o);
      if Fails(o, s) {
        return Failure(ErrorFor(s));
      }
      return Success(());
    }

    /** A point whose branch is not taken makes no call. */
    lemma Skip(st: Stage, c0: seq<Step>, o: Step -> bool)
      requires st < Done && Program(config)[st] == []
      requires Pending(c0, st, o)
      ensures Pending(c0, st + 1, o)
    {
      RunSkip(Program(config), st, o);
    }

    /** `TCL_LIBRARY` and the extension table, set up once the guard is held. */
    method PrepareEnvironment()
      requires tables.Valid() && (tables.original.None? ==> Terminated(runtime.inittab))
      modifies runtime`env, runtime`inittab, tables
      ensures runtime.env == if config.tclLibrary.Some?
                             then old(runtime.env)[TclLibraryVar := config.tclLibrary.value]
                             else old(runtime.env)
      ensures old(tables.original).Some? ==> tables.original == old(tables.original)
      ensures old(tables.original).None? ==> tables.original == Some(NamedPrefix(old(runtime.inittab)))
      ensures tables.replaced == Some(InstalledTable(tables.original.value, config))
      ensures runtime.inittab == tables.replaced.value
      ensures tables.Valid()
    {
      if config.tclLibrary.Some? {
        runtime.SetEnv(TclLibraryVar, config.tclLibrary.value);
      }
      tables.SetPyImportInittab(config, runtime);
    }

    /** Take the global interpreter guard; the state becomes `Initializing`. */
    method TakeGuard(ghost c0: seq<Step>, o: Step -> bool) returns (r: Result<(), NewInterpreterError>)
      requires Pending(c0, Lock, o)
      modifies this`guardHeld, this`state, runtime`calls
      ensures r.Success? ==> Pending(c0, InittabRebuild, o) && state == Initializing && guardHeld
      ensures r.Failure? ==> Stopped(c0, o, r) && InitFailure(config, o) == Some(Lock)
      ensures r.Failure? ==> state == old(state) && guardHeld == old(guardHeld)
    {
      ProgramAt(config, Lock);
      r := Perform(Lock, LockGuard, c0, o);
      if r.Failure? {
        return;
      }
      guardHeld := true;
      state := Initializing;
    }

    /** The first steps of `init` once the state allows it: guard, `TCL_LIBRARY`, extension table. */
    method Start(ghost c0: seq<Step>, o: Step -> bool) returns (r: Result<(), NewInterpreterError>)
      requires Valid() && (state == NotStarted || state == Finalized)
      requires Pending(c0, Lock, o)
      modifies this`guardHeld, this`state, runtime, tables
      ensures r.Success? ==> Pending(c0, PreConfig, o)
      ensures r.Failure? ==> Stopped(c0, o, r) && InitFailure(config, o) == Some(Lock)
      ensures r.Failure? ==> unchanged(this, tables) && unchanged(runtime`inittab, runtime`env)
      ensures r.Success? ==>
                && state == Initializing && guardHeld
                && runtime.env == (if config.tclLibrary.Some?
                                   then old(runtime.env)[TclLibraryVar := config.tclLibrary.value]
                                   else old(runtime.env))
                && (old(tables.original).Some? ==> tables.original == old(tables.original))
                && (old(tables.original).None? ==> tables.original == Some(NamedPrefix(old(runtime.inittab))))
                && tables.replaced == Some(InstalledTable(tables.original.value, config))
                && runtime.inittab == tables.replaced.value
                && tables.Valid()
    {
      r := TakeGuard(c0, o);
      if r.Failure? {
        return;
      }
      PrepareEnvironment();
      ProgramAt(config, InittabRebuild);
      r := Perform(InittabRebuild, RebuildInittab, c0, o);
    }

    /** The run stopped at a failing call: the trace so far and the error `init` returns. */
    ghost predicate Stopped(c0: seq<Step>, o: Step -> bool, r: Result<(), NewInterpreterError>)
      reads runtime`calls
    {
      && runtime.calls == c0 + InitTrace(config, o)
      && InitFailure(config, o).Some?
      && r == InitResult(config, o)
    }

    /** Pre-configuration and pre-initialisation. */
    method PreInitialize(ghost c0: seq<Step>, o: Step -> bool) returns (r: Result<(), NewInterpreterError>)
      requires Pending(c0, PreConfig, o)
      modifies runtime`calls
      ensures r.Success? ==> Pending(c0, Allocator, o)
      ensures r.Failure? ==> Stopped(c0, o, r) && PreConfig <= InitFailure(config, o).value < Allocator
    {
      ProgramAt(config, PreConfig);
      r := Perform(PreConfig, PreConfigFromConfig, c0, o);
      if r.Failure? {
        return;
      }
      ProgramAt(config, PreInit);
      r := Perform(PreInit, PyPreInitialize, c0, o);
    }

    /** Store the configured raw allocator and install it. */
    method InstallAllocator(ghost c0: seq<Step>, o: Step -> bool)
      requires Valid() && state == Initializing
      requires Pending(c0, Allocator, o)
      modifies this`rawAllocator, runtime`calls
      ensures Valid()
      ensures Pending(c0, DebugHooks, o)
      ensures rawAllocator == if ConfiguredAllocator(config).Some? then ConfiguredAllocator(config)
                              else old(rawAllocator)
    {
      ProgramAt(config, Allocator);
      if config.rawAllocator.Some? {
        match config.rawAllocator.value.backend {
          case System =>
          case Jemalloc => rawAllocator := Some(JemallocAllocator);
          case Rust => rawAllocator := Some(RustAllocator);
        }
      }
      if ConfiguredAllocator(config).Some? {
        var _ := Perform(Allocator, PyMemSetAllocator(rawAllocator.value), c0, o);
      } else {
        Skip(Allocator, c0, o);
      }
    }

    /** With a raw allocator configured for debugging: install the debug hooks. */
    method InstallDebugHooks(ghost c0: seq<Step>, o: Step -> bool)
      requires Pending(c0, DebugHooks, o)
      modifies runtime`calls
      ensures Pending(c0, CoreConfig, o)
    {
      ProgramAt(config, DebugHooks);
      if config.rawAllocator.Some? && config.rawAllocator.value.debug {
        var _ := Perform(DebugHooks, PyMemSetupDebugHooks, c0, o);
      } else {
        Skip(DebugHooks, c0, o);
      }
    }

    /** The core configuration, `argv` when resolved, and core initialisation. */
    method InitializeCore(ghost c0: seq<Step>, o: Step -> bool) returns (r: Result<(), NewInterpreterError>)
      requires Pending(c0, CoreConfig, o)
      modifies runtime`calls
      ensures r.Success? ==> Pending(c0, ResourcesNew, o)
      ensures r.Failure? ==> Stopped(c0, o, r) && CoreConfig <= InitFailure(config, o).value < ResourcesNew
    {
      ProgramAt(config, CoreConfig);
      r := Perform(CoreConfig, PyConfigFromConfig, c0, o);
      if r.Failure? {
        return;
      }
      ProgramAt(config, Argv);
      if config.resolvesSysArgv {
        r := Perform(Argv, SetArgv, c0, o);
        if r.Failure? {
          return;
        }
      } else {
        Skip(Argv, c0, o);
      }
      ProgramAt(config, CoreInit);
      r := Perform(CoreInit, PyInitializeFromConfig, c0, o);
    }

    /** With the oxidized importer enabled: a fresh resources state, then the packed resources loaded into it. */
    method LoadPackedResources(ghost c0: seq<Step>, o: Step -> bool) returns (r: Result<(), NewInterpreterError>)
      requires Valid() && state == Initializing
      requires Pending(c0, ResourcesNew, o)
      modifies this`resourcesState, runtime`calls
      ensures Valid()
      ensures r.Success? ==> Pending(c0, ImporterImport, o)
      ensures r.Failure? ==> Stopped(c0, o, r) && ResourcesNew <= InitFailure(config, o).value < ImporterImport
      ensures resourcesState ==
                if !config.oxidizedImporter then old(resourcesState)
                else if Reached(config, o, ResourcesLoad) then Some(ResourcesState(r.Success?))
                else old(resourcesState)
    {
      ProgramAt(config, ResourcesNew);
      if !config.oxidizedImporter {
        Skip(ResourcesNew, c0, o);
        ProgramAt(config, ResourcesLoad);
        Skip(ResourcesLoad, c0, o);
        return Success(());
      }
      r := Perform(ResourcesNew, NewResourcesState, c0, o);
      if r.Failure? {
        return;
      }
      resourcesState := Some(ResourcesState(false));
      ProgramAt(config, ResourcesLoad);
      r := Perform(ResourcesLoad, LoadResources, c0, o);
      if r.Success? {
        resourcesState := Some(ResourcesState(true));
      }
    }

    /** With the oxidized importer enabled: import the extension module and install its importer. */
    method InstallImporter(ghost c0: seq<Step>, o: Step -> bool) returns (r: Result<(), NewInterpreterError>)
      requires Pending(c0, ImporterImport, o)
      modifies runtime`calls
      ensures r.Success? ==> Pending(c0, MainInit, o)
      ensures r.Failure? ==> Stopped(c0, o, r) && ImporterImport <= InitFailure(config, o).value < MainInit
    {
      ProgramAt(config, ImporterImport);
      if !config.oxidizedImporter {
        Skip(ImporterImport, c0, o);
        ProgramAt(config, ImporterInit);
        Skip(ImporterInit, c0, o);
        return Success(());
      }
      r := Perform(ImporterImport, ImportOxidizedImporter, c0, o);
      if r.Failure? {
        return;
      }
      ProgramAt(config, ImporterInit);
      r := Perform(ImporterInit, InitializeImporter, c0, o);
    }

    /** Main initialisation. */
    method InitializeMain(ghost c0: seq<Step>, o: Step -> bool) returns (r: Result<(), NewInterpreterError>)
      requires Pending(c0, MainInit, o)
      modifies runtime`calls
      ensures r.Success? ==> Pending(c0, SysModule, o)
      ensures r.Failure? ==> Stopped(c0, o, r) && InitFailure(config, o) == Some(MainInit)
    {
      ProgramAt(config, MainInit);
      r := Perform(MainInit, PyInitializeMain, c0, o);
    }

    /** With the filesystem importer disabled: pop the last `sys.meta_path` entry. */
    method RemoveFilesystemImporter(ghost c0: seq<Step>, o: Step -> bool) returns (r: Result<(), NewInterpreterError>)
      requires Pending(c0, SysModule, o)
      modifies runtime`calls
      ensures r.Success? ==> Pending(c0, SysArgvb, o)
      ensures r.Failure? ==> Stopped(c0, o, r) && SysModule <= InitFailure(config, o).value < SysArgvb
    {
      ProgramAt(config, SysModule);
      if config.filesystemImporter {
        Skip(SysModule, c0, o);
        ProgramAt(config, MetaPath);
        Skip(MetaPath, c0, o);
        ProgramAt(config, MetaPathPop);
        Skip(MetaPathPop, c0, o);
        return Success(());
      }
      r := Perform(SysModule, ImportSys, c0, o);
      if r.Failure? {
        return;
      }
      ProgramAt(config, MetaPath);
      r := Perform(MetaPath, GetMetaPath, c0, o);
      if r.Failure? {
        return;
      }
      ProgramAt(config, MetaPathPop);
      r := Perform(MetaPathPop, PopMetaPath, c0, o);
    }

    /** `sys.argvb`, `sys.oxidized`, `sys.frozen` and `sys._MEIPASS`, each only when configured but `oxidized`. */
    method SetSysAttributes(ghost c0: seq<Step>, o: Step -> bool) returns (r: Result<(), NewInterpreterError>)
      requires Pending(c0, SysArgvb, o)
      modifies runtime`calls
      ensures r.Success? ==> Pending(c0, Done, o)
      ensures r.Failure? ==> Stopped(c0, o, r) && SysArgvb <= InitFailure(config, o).value
    {
      ProgramAt(config, SysArgvb);
      if config.argvb {
        r := Perform(SysArgvb, PySysSetObject(Argvb), c0, o);
        if r.Failure? {
          return;
        }
      } else {
        Skip(SysArgvb, c0, o);
      }
      ProgramAt(config, SysOxidized);
      r := Perform(SysOxidized, PySysSetObject(Oxidized), c0, o);
      if r.Failure? {
        return;
      }
      ProgramAt(config, SysFrozen);
      if config.sysFrozen {
        r := Perform(SysFrozen, PySysSetObject(Frozen), c0, o);
        if r.Failure? {
          return;
        }
      } else {
        Skip(SysFrozen, c0, o);
      }
      ProgramAt(config, SysMeipass);
      if config.sysMeipass {
        r := Perform(SysMeipass, PySysSetObject(Meipass), c0, o);
      } else {
        Skip(SysMeipass, c0, o);
        r := Success(());
      }
    }

    /** Pre-initialisation, the raw allocator and core initialisation: points `PreConfig` to `CoreInit`. */
    method Configure(ghost c0: seq<Step>, o: Step -> bool) returns (r: Result<(), NewInterpreterError>)
      requires Valid() && state == Initializing
      requires Pending(c0, PreConfig, o)
      modifies this`rawAllocator, runtime`calls
      ensures Valid()
      ensures r.Success? ==> Pending(c0, ResourcesNew, o)
      ensures r.Failure? ==> Stopped(c0, o, r) && PreConfig <= InitFailure(config, o).value < ResourcesNew
      ensures rawAllocator == if Reached(config, o, Allocator) && ConfiguredAllocator(config).Some?
                              then ConfiguredAllocator(config) else old(rawAllocator)
    {
      r := PreInitialize(c0, o);
      if r.Failure? {
        return;
      }
      InstallAllocator(c0, o);
      InstallDebugHooks(c0, o);
      r := InitializeCore(c0, o);
    }

    /**
      The importer and main initialisation: points `ResourcesNew` to `MetaPathPop`;
      when all of them succeed the interpreter holds the GIL and is `Initialized`.
    */
    method Import(ghost c0: seq<Step>, o: Step -> bool) returns (r: Result<(), NewInterpreterError>)
      requires Valid() && state == Initializing && py.None? && gil.None? && resourcesState.None?
      requires Pending(c0, ResourcesNew, o)
      modifies this`resourcesState, this`py, this`state, runtime`calls
      ensures Valid()
      ensures r.Success? ==> Pending(c0, SysArgvb, o)
      ensures r.Failure? ==> Stopped(c0, o, r) && ResourcesNew <= InitFailure(config, o).value < SysArgvb
      ensures resourcesState == if config.oxidizedImporter && Reached(config, o, ResourcesLoad)
                                then Some(ResourcesState(Reached(config, o, ImporterImport))) else None
      ensures py == (if r.Success? then Some(Python) else None)
      ensures state == (if r.Success? then Initialized else Initializing)
    {
      r := LoadPackedResources(c0, o);
      if r.Failure? {
        return;
      }
      r := InstallImporter(c0, o);
      if r.Failure? {
        return;
      }
      r := InitializeMain(c0, o);
      if r.Failure? {
        return;
      }
      r := RemoveFilesystemImporter(c0, o);
      if r.Failure? {
        return;
      }
      py := Some(Python);
      state := Initialized;
    }

    /** Past the last point the run is complete and has succeeded. */
    lemma Finished(c0: seq<Step>, o: Step -> bool)
      requires Pending(c0, Done, o)
      ensures runtime.calls == c0 + InitTrace(config, o)
      ensures InitResult(config, o) == Success(())
    {
      assert RunUntilFailure(Program(config), Done, o) == [];
      assert FirstFailure(Program(config), Done, o) == None;
    }

    /** The rest of the bring-up from `ResourcesNew` on. */
    method Finish(ghost c0: seq<Step>, o: Step -> bool) returns (r: Result<(), NewInterpreterError>)
      requires Valid() && state == Initializing && py.None? && gil.None? && resourcesState.None?
      requires Pending(c0, ResourcesNew, o)
      modifies this`resourcesState, this`py, this`state, runtime`calls
      ensures Valid()
      ensures runtime.calls == c0 + InitTrace(config, o)
      ensures r == InitResult(config, o)
      ensures state == (if Reached(config, o, SysArgvb) then Initialized else Initializing)
      ensures py == (if Reached(config, o, SysArgvb) then Some(Python) else None)
      ensures resourcesState == if config.oxidizedImporter && Reached(config, o, ResourcesLoad)
                                then Some(ResourcesState(Reached(config, o, ImporterImport))) else None
    {
      r := Import(c0, o);
      if r.Failure? {
        return;
      }
      r := SetSysAttributes(c0, o);
      if r.Success? {
        Finished(c0, o);
        assert r.value == ();
      }
    }

    /** The bring-up once the guard is held and the extension table installed. */
    method Proceed(ghost c0: seq<Step>, o: Step -> bool) returns (r: Result<(), NewInterpreterError>)
      requires Valid() && state == Initializing && py.None? && gil.None? && resourcesState.None?
      requires Pending(c0, PreConfig, o)
      modifies this`rawAllocator, this`resourcesState, this`py, this`state, runtime`calls
      ensures Valid()
      ensures runtime.calls == c0 + InitTrace(config, o)
      ensures r == InitResult(config, o)
      ensures state == (if Reached(config, o, SysArgvb) then Initialized else Initializing)
      ensures py == (if Reached(config, o, SysArgvb) then Some(Python) else None)
      ensures rawAllocator == if Reached(config, o, Allocator) && ConfiguredAllocator(config).Some?
                              then ConfiguredAllocator(config) else old(rawAllocator)
      ensures resourcesState == if config.oxidizedImporter && Reached(config, o, ResourcesLoad)
                                then Some(ResourcesState(Reached(config, o, ImporterImport))) else None
    {
      r := Configure(c0, o);
      if r.Failure? {
        return;
      }
      r := Finish(c0, o);
    }

    /**
      The bring-up of `init` from a stopped state: the calls of `InitTrace`,
      stopping at the first failure, with the error of `InitResult`.  A failure
      leaves the state where it stopped: the guard stays held from the lock on,
      `py` and `Initialized` are set once main initialisation and the
      `sys.meta_path` clean-up succeeded.
    */
    method Launch(o: Step -> bool) returns (r: Result<(), NewInterpreterError>)
      requires Valid() && (state == NotStarted || state == Finalized)
      modifies this, runtime, tables
      ensures Valid()
      ensures runtime.calls == old(runtime.calls) + InitTrace(config, o)
      ensures r == InitResult(config, o)
      ensures guardHeld == Reached(config, o, InittabRebuild)
      ensures state == if !Reached(config, o, InittabRebuild) then old(state)
                       else if Reached(config, o, SysArgvb) then Initialized
                       else Initializing
      ensures py == (if Reached(config, o, SysArgvb) then Some(Python) else None) && gil.None?
      ensures rawAllocator == if Reached(config, o, Allocator) && ConfiguredAllocator(config).Some?
                              then ConfiguredAllocator(config) else old(rawAllocator)
      ensures resourcesState == if config.oxidizedImporter && Reached(config, o, ResourcesLoad)
                                then Some(ResourcesState(Reached(config, o, ImporterImport))) else None
      ensures !Reached(config, o, InittabRebuild) ==> unchanged(tables) && unchanged(runtime`inittab, runtime`env)
      ensures Reached(config, o, InittabRebuild) ==>
                && runtime.env == (if config.tclLibrary.Some?
                                   then old(runtime.env)[TclLibraryVar := config.tclLibrary.value]
                                   else old(runtime.env))
                && tables.original == (if old(tables.original).Some? then old(tables.original)
                                       else Some(NamedPrefix(old(runtime.inittab))))
                && tables.replaced == Some(InstalledTable(tables.original.value, config))
                && runtime.inittab == tables.replaced.value
    {
      ghost var c0 := runtime.calls;
      r := Start(c0, o);
      if r.Failure? {
        return;
      }
      r := Proceed(c0, o);
    }

    /**
      `init`: refused while initialising, a no-op once initialised, and
      otherwise the bring-up of `Launch`.
    */
    method Init(o: Step -> bool) returns (r: Result<(), NewInterpreterError>)
      requires Valid()
      modifies this, runtime, tables
      ensures Valid()
      ensures old(state) == Initializing ==>
                r == Failure(Simple("interpreter in initializing state")) && unchanged(this, runtime, tables)
      ensures old(state) == Initialized ==> r == Success(()) && unchanged(this, runtime, tables)
      ensures old(state) == NotStarted || old(state) == Finalized ==>
                && runtime.calls == old(runtime.calls) + InitTrace(config, o)
                && r == InitResult(config, o)
                && guardHeld == Reached(config, o, InittabRebuild)
                && state == (if !Reached(config, o, InittabRebuild) then old(state)
                             else if Reached(config, o, SysArgvb) then Initialized
                             else Initializing)
                && py == (if Reached(config, o, SysArgvb) then Some(Python) else None)
                && gil.None?
                && rawAllocator == (if Reached(config, o, Allocator) && ConfiguredAllocator(config).Some?
                                    then ConfiguredAllocator(config) else old(rawAllocator))
                && resourcesState == (if config.oxidizedImporter && Reached(config, o, ResourcesLoad)
                                      then Some(ResourcesState(Reached(config, o, ImporterImport))) else None)
      ensures old(state) == NotStarted || old(state) == Finalized ==>
                if !Reached(config, o, InittabRebuild) then unchanged(tables) && unchanged(runtime`inittab, runtime`env)
                else
                  && runtime.env == (if config.tclLibrary.Some?
                                     then old(runtime.env)[TclLibraryVar := config.tclLibrary.value]
                                     else old(runtime.env))
                  && tables.original == (if old(tables.original).Some? then old(tables.original)
                                         else Some(NamedPrefix(old(runtime.inittab))))
                  && tables.replaced == Some(InstalledTable(tables.original.value, config))
                  && runtime.inittab == tables.replaced.value
    {
      if state == Initializing {
        return Failure(Simple("interpreter in initializing state"));
      } else if state == Initialized {
        return Success(());
      }
      r := Launch(o);
    }

    // -------------------------------------------------------------------------
    // The GIL, Py_RunMain and drop

    /** `release_gil`: forget the `py` token and drop the guard, if held. */
    method ReleaseGil()
      requires Valid()
      modifies this`py, this`gil
      ensures Valid()
      ensures py.None? && gil.None?
    {
      if py.Some? {
        py := None;
        gil := None;
      }
    }

    /**
      `acquire_gil`: only an initialised interpreter hands out the token;
      the GIL is taken anew only when no token is held.
    */
    method AcquireGil() returns (r: Result<Python, string>)
      requires Valid()
      modifies this`py, this`gil, runtime`calls
      ensures Valid()
      ensures r == if state == Initialized then Success(Python) else Failure(GilError(state).value)
      ensures state == Initialized ==> py.Some?
      ensures state == Initialized && old(py).None? ==>
                runtime.calls == old(runtime.calls) + [GilAcquire] && gil == Some(GilGuard)
      ensures !(state == Initialized && old(py).None?) ==> unchanged(this`py, this`gil, runtime`calls)
    {
      match state {
        case NotStarted => return Failure("interpreter not initialized");
        case Initializing => return Failure("interpreter not fully initialized");
        case Finalized => return Failure("interpreter is finalized");
        case Initialized =>
      }
      if py.None? {
        runtime.Call(GilAcquire);
        gil := Some(GilGuard);
        py := Some(Python);
      }
      return Success(Python);
    }

    /**
      `py_runmain`: `Py_RunMain` runs and finalises the interpreter, whose
      exit code is returned; every handle is dropped and the state is
      `Finalized`.  The raw allocator stays installed.
    */
    method PyRunMain(exitCode: int32) returns (code: int32)
      requires Valid()
      modifies this`guardHeld, this`state, this`resourcesState, this`py, this`gil, runtime`calls
      ensures Valid()
      ensures code == exitCode
      ensures runtime.calls == old(runtime.calls) + [Step.PyRunMain]
      ensures state == Finalized && !guardHeld && resourcesState.None? && py.None? && gil.None?
    {
      runtime.Call(Step.PyRunMain);
      guardHeld := false;
      state := Finalized;
      resourcesState := None;
      py := None;
      gil := None;
      code := exitCode;
    }

    /**
      `drop` as written: when the modules-list variable is set, `acquire_gil().unwrap()`
      panics unless the interpreter is `Initialized`, so `Py_FinalizeEx` never runs.
    */
    method DropAsWritten(keys: seq<PyKey>, uuid: string, io: IoStep -> bool)
      returns (outcome: DropOutcome, file: Option<WrittenFile>)
      requires Valid()
      modifies this`py, this`gil, runtime`calls
      ensures Valid()
      ensures WantsModulesFile(config, runtime.env) && state != Initialized ==>
                && outcome == Panicked(GilError(state).value)
                && file.None?
                && runtime.calls == old(runtime.calls)
      ensures !(WantsModulesFile(config, runtime.env) && state != Initialized) ==>
                && outcome == Completed
                && runtime.calls == old(runtime.calls) + GilCalls(old(py), WantsModulesFile(config, runtime.env)) + [PyFinalizeEx]
      ensures file.Some? <==> WantsModulesFile(config, runtime.env) && state == Initialized && Collected(keys, io) && io(CreateFile)
      ensures file.Some? ==> file.value.name == FilePrefix + uuid
      ensures file.Some? ==> file.value.content == Listing(NameSet(keys)[..WrittenCount(|NameSet(keys)|, io, 0)])
    {
      file := None;
      if WantsModulesFile(config, runtime.env) {
        var acquired := AcquireGil();
        if acquired.Failure? {
          return Panicked(acquired.error), None;
        }
        var written;
        written, file := WriteModulesToDirectory(keys, uuid, io);
      }
      runtime.Call(PyFinalizeEx);
      outcome := Completed;
    }

    /**
      `drop` corrected: the modules list is written only when the GIL can be had,
      and `Py_FinalizeEx` runs exactly once in every state.
    */
    method Drop(keys: seq<PyKey>, uuid: string, io: IoStep -> bool) returns (file: Option<WrittenFile>)
      requires Valid()
      modifies this`py, this`gil, runtime`calls
      ensures Valid()
      ensures runtime.calls ==
                old(runtime.calls) + GilCalls(old(py), WantsModulesFile(config, runtime.env) && state == Initialized) + [PyFinalizeEx]
      ensures file.Some? <==> WantsModulesFile(config, runtime.env) && state == Initialized && Collected(keys, io) && io(CreateFile)
      ensures file.Some? ==> file.value.name == FilePrefix + uuid
      ensures file.Some? ==> file.value.content == Listing(NameSet(keys)[..WrittenCount(|NameSet(keys)|, io, 0)])
    {
      file := None;
      if WantsModulesFile(config, runtime.env) && state == Initialized {
        var acquired := AcquireGil();
        var written;
        written, file := WriteModulesToDirectory(keys, uuid, io);
      }
      runtime.Call(PyFinalizeEx);
    }
  }

  /** The error `acquire_gil` reports in state `st`; none once initialised. */
  function GilError(st: InterpreterState): (e: Option<string>)
    ensures e.None? <==> st == Initialized
  {
    match st
    case NotStarted => Some("interpreter not initialized")
    case Initializing => Some("interpreter not fully initialized")
    case Initialized => None
    case Finalized => Some("interpreter is finalized")
  }

  /** The GIL is taken for the modules list exactly when it is wanted and no token is held. */
  function GilCalls(py: Option<Python>, wanted: bool): seq<Step>
  {
    if wanted && py.None? then [GilAcquire] else []
  }

  // ---------------------------------------------------------------------------
  // new

  /** The value `new` puts in `TERMINFO_DIRS`, given what dynamic resolution found. */
  function TerminfoSetting(resolution: TerminfoResolution, resolved: Option<string>): (v: Option<string>)
    ensures v.None? <==> resolution.NoTerminfo? || (resolution.Dynamic? && resolved.None?)
    ensures resolution.Static? ==> v == Some(resolution.dirs)
    ensures resolution.Dynamic? ==> v == resolved
  {
    match resolution
    case Dynamic => resolved
    case Static(dirs) => Some(dirs)
    case NoTerminfo => None
  }

  /**
    `new`: set `TERMINFO_DIRS` as the configuration asks, build a stopped
    interpreter and initialise it.  When `init` fails the half-built
    interpreter is dropped (with the corrected `Drop`) and the error is
    returned; `Py_FinalizeEx` is then the last call.
  */
  method NewInterpreter(config: Config, runtime: Runtime, tables: ExtensionTables,
                        resolvedTerminfo: Option<string>, o: Step -> bool,
                        keys: seq<PyKey>, uuid: string, io: IoStep -> bool)
    returns (r: Result<MainPythonInterpreter, NewInterpreterError>)
    requires tables.Valid() && (tables.original.None? ==> Terminated(runtime.inittab))
    modifies runtime, tables
    ensures r.Success? <==> InitResult(config, o).Success?
    ensures r.Success? ==>
              && fresh(r.value) && r.value.Valid()
              && r.value.config == config && r.value.runtime == runtime && r.value.tables == tables
              && r.value.state == Initialized && r.value.py.Some? && r.value.guardHeld
              && runtime.calls == old(runtime.calls) + InitPlan(config)
    ensures r.Failure? ==>
              && r.error == InitResult(config, o).error
              && runtime.calls == old(runtime.calls) + InitTrace(config, o) + [PyFinalizeEx]
    ensures TerminfoSetting(config.terminfoResolution, resolvedTerminfo).Some? ==>
              TerminfoDirsVar in runtime.env &&
              runtime.env[TerminfoDirsVar] == TerminfoSetting(config.terminfoResolution, resolvedTerminfo).value
    ensures TerminfoSetting(config.terminfoResolution, resolvedTerminfo).None? ==>
              && (TerminfoDirsVar in runtime.env <==> TerminfoDirsVar in old(runtime.env))
              && (TerminfoDirsVar in old(runtime.env) ==> runtime.env[TerminfoDirsVar] == old(runtime.env)[TerminfoDirsVar])
  {
    var terminfo := TerminfoSetting(config.terminfoResolution, resolvedTerminfo);
    if terminfo.Some? {
      runtime.SetEnv(TerminfoDirsVar, terminfo.value);
    }
    var interpreter := new MainPythonInterpreter(config, runtime, tables);
    var init := interpreter.Init(o);
    InitResultMeans(config, o);
    if init.Failure? {
      var _ := interpreter.Drop(keys, uuid, io);
      return Failure(init.error);
    }
    return Success(interpreter);
  }

  // ---------------------------------------------------------------------------
  // A failed `new` with the modules-list variable set

  const ModulesEnv: string := "PYOXIDIZER_WRITE_MODULES_DIR"

  /** A configuration that asks for the modules list and nothing optional. */
  const ModulesListConfig: Config :=
    Config(NoTerminfo, None, None, false, false, true, None, false, false, false, Some(ModulesEnv))

  /** `new` up to the failed `init`: `Py_PreInitialize` fails while the modules-list variable is set. */
  method PreInitFailureInNew() returns (interpreter: MainPythonInterpreter, r: Result<(), NewInterpreterError>)
    ensures fresh(interpreter) && interpreter.Valid() && interpreter.state == Initializing
    ensures fresh(interpreter.runtime) && WantsModulesFile(interpreter.config, interpreter.runtime.env)
    ensures interpreter.runtime.calls == [LockGuard, RebuildInittab, PreConfigFromConfig, PyPreInitialize]
    ensures r == Failure(Status("Python pre-initialization"))
  {
    var runtime := new Runtime([Sentinel], map[ModulesEnv := "modules"]);
    var tables := new ExtensionTables();
    assert runtime.inittab[0].name.None?;
    interpreter := new MainPythonInterpreter(ModulesListConfig, runtime, tables);
    var o := (s: Step) => !s.PyPreInitialize?;
    PreInitFailure(ModulesListConfig, o);
    r := interpreter.Init(o);
  }

  /**
    Dropping that half-built interpreter as written panics in
    `acquire_gil().unwrap()`, and `Py_FinalizeEx` is never called.
  */
  method PreInitFailureDropAsWritten() returns (outcome: DropOutcome, calls: seq<Step>)
    ensures outcome == Panicked("interpreter not fully initialized")
    ensures calls == [LockGuard, RebuildInittab, PreConfigFromConfig, PyPreInitialize]
    ensures PyFinalizeEx !in calls
  {
    var interpreter, _ := PreInitFailureInNew();
    var file;
    outcome, file := interpreter.DropAsWritten([], "0", (io: IoStep) => true);
    calls := interpreter.runtime.calls;
  }

  /** The same failure with the corrected `Drop`: no panic, and `Py_FinalizeEx` is the last call. */
  method PreInitFailureDrop() returns (calls: seq<Step>)
    ensures calls == [LockGuard, RebuildInittab, PreConfigFromConfig, PyPreInitialize, PyFinalizeEx]
  {
    var interpreter, _ := PreInitFailureInNew();
    var file := interpreter.Drop([], "0", (io: IoStep) => true);
    calls := interpreter.runtime.calls;
  }
}
