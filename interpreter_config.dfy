/**
  The part of the resolved interpreter configuration that the lifecycle code
  consults.  Values the lifecycle code only forwards (argv contents, packed
  resource bytes, the origin path string) are not represented.
*/
module InterpreterConfig {
  import opened Wrappers
  import opened PythonRuntime

  datatype MemoryAllocatorBackend = System | Jemalloc | Rust

  datatype RawAllocatorConfig = RawAllocatorConfig(backend: MemoryAllocatorBackend, debug: bool)

  datatype TerminfoResolution = Dynamic | Static(dirs: string) | NoTerminfo

  /** An extra statically linked extension module: name and init function. */
  datatype ExtensionModule = ExtensionModule(name: string, initFunc: InitFunc)

  datatype Config = Config(
    terminfoResolution: TerminfoResolution,
    tclLibrary: Option<string>,
    rawAllocator: Option<RawAllocatorConfig>,
    /** `resolve_sys_argv()` yields arguments, so `set_argv` runs. */
    resolvesSysArgv: bool,
    oxidizedImporter: bool,
    filesystemImporter: bool,
    extraExtensionModules: Option<seq<ExtensionModule>>,
    argvb: bool,
    sysFrozen: bool,
    sysMeipass: bool,
    writeModulesDirectoryEnv: Option<string>)

  const TerminfoDirsVar: string := "TERMINFO_DIRS"
  const TclLibraryVar: string := "TCL_LIBRARY"

  /** The allocator a backend stores in `raw_allocator`: none for the system allocator. */
  function AllocatorFor(backend: MemoryAllocatorBackend): (k: Option<RawAllocatorKind>)
    ensures k.None? <==> backend == System
    ensures k == Some(JemallocAllocator) <==> backend == Jemalloc
    ensures k == Some(RustAllocator) <==> backend == Rust
  {
    match backend
    case System => None
    case Jemalloc => Some(JemallocAllocator)
    case Rust => Some(RustAllocator)
  }

  /** The allocator `init` stores for this configuration, if any. */
  function ConfiguredAllocator(cfg: Config): (k: Option<RawAllocatorKind>)
    ensures k.Some? <==> cfg.rawAllocator.Some? && cfg.rawAllocator.value.backend != System
    ensures k.Some? ==> k == AllocatorFor(cfg.rawAllocator.value.backend)
  {
    match cfg.rawAllocator
    case None => None
    case Some(a) => AllocatorFor(a.backend)
  }
}
