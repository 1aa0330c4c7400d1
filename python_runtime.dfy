/**
  The embedded CPython runtime as the interpreter manager sees it: the calls
  made into it (recorded in order in a trace), the `PyImport_Inittab` table it
  reads at core initialisation, and the process environment.  Every call is an
  opaque step; whether a fallible one succeeds is decided by an outcome oracle
  that the caller passes in.
*/
module PythonRuntime {
  import opened Wrappers

  /** Identity of an extension module's `PyInit_*` function. */
  datatype InitFunc = PyInitOxidizedImporter | Native(address: nat)

  /** One `_inittab` record: a name (null in the sentinel) and an init function. */
  datatype Entry = Entry(name: Option<string>, initFunc: Option<InitFunc>)

  const Sentinel: Entry := Entry(None, None)

  /** The raw allocator handed to `PyMem_SetAllocator`. */
  datatype RawAllocatorKind = JemallocAllocator | RustAllocator

  /** Attributes of the `sys` module set after initialisation. */
  datatype SysAttribute = Argvb | Oxidized | Frozen | Meipass
  {
    function Name(): string
    {
      match this
      case Argvb => "argvb"
      case Oxidized => "oxidized"
      case Frozen => "frozen"
      case Meipass => "_MEIPASS"
    }
  }

  /** A call made by the interpreter manager, in the order it is made. */
  datatype Step =
    | LockGuard                       // GLOBAL_INTERPRETER_GUARD.lock()
    | RebuildInittab                  // set_pyimport_inittab
    | PreConfigFromConfig             // PyPreConfig::try_from(&config)
    | PyPreInitialize
    | PyMemSetAllocator(allocator: RawAllocatorKind)
    | PyMemSetupDebugHooks
    | PyConfigFromConfig              // (&config).try_into() into PyConfig
    | SetArgv
    | PyInitializeFromConfig
    | NewResourcesState               // PythonResourcesState::new_from_env
    | LoadResources                   // resources_state.load(packed_resources)
    | ImportOxidizedImporter
    | InitializeImporter
    | PyInitializeMain
    | ImportSys
    | GetMetaPath
    | PopMetaPath
    | PySysSetObject(attribute: SysAttribute)
    | GilAcquire                      // GILGuard::acquire
    | PyRunMain
    | PyFinalizeEx

  /** Calls that cannot report failure; the outcome oracle is not consulted for them. */
  predicate Infallible(s: Step)
  {
    s.RebuildInittab? || s.PyMemSetAllocator? || s.PyMemSetupDebugHooks? || s.GilAcquire?
    || s.PyRunMain? || s.PyFinalizeEx?
  }

  /** The step fails under the outcome oracle `o`. */
  predicate Fails(o: Step -> bool, s: Step)
  {
    !Infallible(s) && !o(s)
  }

  /** The C table is terminated: some record has a null name. */
  ghost predicate Terminated(table: seq<Entry>)
  {
    exists k :: 0 <= k < |table| && table[k].name.None?
  }

  /** Process-wide state of the embedded runtime. */
  class Runtime {
    /** Every call made into the runtime, oldest first. */
    var calls: seq<Step>
    /** The records `PyImport_Inittab` currently points at. */
    var inittab: seq<Entry>
    /** The process environment. */
    var env: map<string, string>

    constructor (inittab: seq<Entry>, env: map<string, string>)
      ensures calls == [] && this.inittab == inittab && this.env == env
    {
      calls := [];
      this.inittab := inittab;
      this.env := env;
    }

    /** `env::set_var`. */
    method SetEnv(key: string, value: string)
      modifies this`env
      ensures env == old(env)[key := value]
    {
      env := env[key := value];
    }

    /** Record a call. */
    method Call(s: Step)
      modifies this`calls
      ensures calls == old(calls) + [s]
    {
      calls := calls + [s];
    }
  }
}
