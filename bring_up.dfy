/**
  The bring-up sequence of `MainPythonInterpreter::init` once the state checks
  have passed.  `init` is a fixed series of program points; each makes at most
  one call, depending on the configuration.  `Program(cfg)` lists, point by
  point, the call each one makes; `InitPlan` is the calls of a run in which
  nothing fails, `InitTrace` the calls actually made when the outcome oracle
  `o` decides which fallible calls fail: the run stops at the first failure.
*/
module BringUp {
  import opened Wrappers
  import opened PythonRuntime
  import opened InterpreterConfig

  /**
    The program points of `init`, in source order, numbered from 0; `Done` is
    the point after the last call.
  */
  type Stage = n: nat | n <= 21

  const Lock: Stage := 0
  const InittabRebuild: Stage := 1
  const PreConfig: Stage := 2
  const PreInit: Stage := 3
  const Allocator: Stage := 4
  const DebugHooks: Stage := 5
  const CoreConfig: Stage := 6
  const Argv: Stage := 7
  const CoreInit: Stage := 8
  const ResourcesNew: Stage := 9
  const ResourcesLoad: Stage := 10
  const ImporterImport: Stage := 11
  const ImporterInit: Stage := 12
  const MainInit: Stage := 13
  const SysModule: Stage := 14
  const MetaPath: Stage := 15
  const MetaPathPop: Stage := 16
  const SysArgvb: Stage := 17
  const SysOxidized: Stage := 18
  const SysFrozen: Stage := 19
  const SysMeipass: Stage := 20
  const Done: Stage := 21

  /** The program point that makes a call; `Done` for calls made outside `init`. */
  function StageOf(s: Step): Stage
  {
    match s
    case LockGuard => Lock
    case RebuildInittab => InittabRebuild
    case PreConfigFromConfig => PreConfig
    case PyPreInitialize => PreInit
    case PyMemSetAllocator(_) => Allocator
    case PyMemSetupDebugHooks => DebugHooks
    case PyConfigFromConfig => CoreConfig
    case SetArgv => Argv
    case PyInitializeFromConfig => CoreInit
    case NewResourcesState => ResourcesNew
    case LoadResources => ResourcesLoad
    case ImportOxidizedImporter => ImporterImport
    case InitializeImporter => ImporterInit
    case PyInitializeMain => MainInit
    case ImportSys => SysModule
    case GetMetaPath => MetaPath
    case PopMetaPath => MetaPathPop
    case PySysSetObject(a) =>
      (match a case Argvb => SysArgvb case Oxidized => SysOxidized
               case Frozen => SysFrozen case Meipass => SysMeipass)
    case GilAcquire => Done
    case PyRunMain => Done
    case PyFinalizeEx => Done
  }

  function When(b: bool, s: Step): seq<Step>
  {
    if b then [s] else []
  }

  /**
    The call `init` makes at point `st` under `cfg`: none where a branch skips
    it, and only a call of that point.  The unconditional points always make
    theirs.
  */
  function Slot(st: Stage, cfg: Config): (r: seq<Step>)
    ensures |r| <= 1 && (r != [] ==> StageOf(r[0]) == st)
    ensures st in {Lock, InittabRebuild, PreConfig, PreInit, CoreConfig, CoreInit, MainInit, SysOxidized} ==> |r| == 1
    ensures st >= Done ==> r == []
  {
    if st == Lock then [LockGuard]
    else if st == InittabRebuild then [RebuildInittab]
    else if st == PreConfig then [PreConfigFromConfig]
    else if st == PreInit then [PyPreInitialize]
    else if st == Allocator then
      (match ConfiguredAllocator(cfg) case Some(k) => [PyMemSetAllocator(k)] case None => [])
    else if st == DebugHooks then
      When(cfg.rawAllocator.Some? && cfg.rawAllocator.value.debug, PyMemSetupDebugHooks)
    else if st == CoreConfig then [PyConfigFromConfig]
    else if st == Argv then When(cfg.resolvesSysArgv, SetArgv)
    else if st == CoreInit then [PyInitializeFromConfig]
    else if st == ResourcesNew then When(cfg.oxidizedImporter, NewResourcesState)
    else if st == ResourcesLoad then When(cfg.oxidizedImporter, LoadResources)
    else if st == ImporterImport then When(cfg.oxidizedImporter, ImportOxidizedImporter)
    else if st == ImporterInit then When(cfg.oxidizedImporter, InitializeImporter)
    else if st == MainInit then [PyInitializeMain]
    else if st == SysModule then When(!cfg.filesystemImporter, ImportSys)
    else if st == MetaPath then When(!cfg.filesystemImporter, GetMetaPath)
    else if st == MetaPathPop then When(!cfg.filesystemImporter, PopMetaPath)
    else if st == SysArgvb then When(cfg.argvb, PySysSetObject(Argvb))
    else if st == SysOxidized then [PySysSetObject(Oxidized)]
    else if st == SysFrozen then When(cfg.sysFrozen, PySysSetObject(Frozen))
    else if st == SysMeipass then When(cfg.sysMeipass, PySysSetObject(Meipass))
    else []
  }

  /** The slots of the first `n` program points. */
  function Slots(cfg: Config, n: nat): (p: seq<seq<Step>>)
    requires n <= Done
    ensures |p| == n
  {
    if n == 0 then [] else Slots(cfg, n - 1) + [Slot(n - 1, cfg)]
  }

  /** Point by point, the calls of `init` under `cfg`. */
  function Program(cfg: Config): (p: seq<seq<Step>>)
    ensures |p| == Done
  {
    Slots(cfg, Done)
  }

  lemma {:induction false} SlotsAt(cfg: Config, n: nat, k: nat)
    requires k < n <= Done
    ensures Slots(cfg, n)[k] == Slot(k, cfg)
  {
    if k < n - 1 {
      SlotsAt(cfg, n - 1, k);
    }
  }

  /** Slot `st` of the program is the call of point `st`. */
  lemma ProgramAt(cfg: Config, st: Stage)
    requires st < Done
    ensures Program(cfg)[st] == Slot(st, cfg)
  {
    SlotsAt(cfg, Done, st);
  }

  // ---------------------------------------------------------------------------
  // Running a program of at-most-one-call slots

  /** Each slot holds at most one call, and the call's own program point is that slot. */
  ghost predicate Staged(p: seq<seq<Step>>)
  {
    forall k :: 0 <= k < |p| ==> |p[k]| <= 1 && (p[k] != [] ==> StageOf(p[k][0]) == k)
  }

  /** The calls from slot `k` on when nothing fails. */
  function Run(p: seq<seq<Step>>, k: nat): seq<Step>
    decreases |p| - k
  {
    if k >= |p| then [] else p[k] + Run(p, k + 1)
  }

  predicate FailsIn(slot: seq<Step>, o: Step -> bool)
  {
    slot != [] && Fails(o, slot[0])
  }

  /** The calls actually made from slot `k` on: up to and including the first failing one. */
  function RunUntilFailure(p: seq<seq<Step>>, k: nat, o: Step -> bool): seq<Step>
    decreases |p| - k
  {
    if k >= |p| then []
    else if FailsIn(p[k], o) then p[k]
    else p[k] + RunUntilFailure(p, k + 1, o)
  }

  /** The first slot at or after `k` whose call fails, if any. */
  function FirstFailure(p: seq<seq<Step>>, k: nat, o: Step -> bool): (f: Option<nat>)
    decreases |p| - k
    ensures f.Some? ==> k <= f.value < |p| && FailsIn(p[f.value], o)
  {
    if k >= |p| then None
    else if FailsIn(p[k], o) then Some(k)
    else FirstFailure(p, k + 1, o)
  }

  /** Running from a slot holding call `s`: make `s`, then stop if it failed or go on with the next slot. */
  lemma RunStep(p: seq<seq<Step>>, k: nat, o: Step -> bool, s: Step)
    requires k < |p| && p[k] == [s]
    ensures RunUntilFailure(p, k, o) == if Fails(o, s) then [s] else [s] + RunUntilFailure(p, k + 1, o)
    ensures FirstFailure(p, k, o) == if Fails(o, s) then Some(k) else FirstFailure(p, k + 1, o)
  {
  }

  /** Running from an empty slot is running from the next one. */
  lemma RunSkip(p: seq<seq<Step>>, k: nat, o: Step -> bool)
    requires k < |p| && p[k] == []
    ensures RunUntilFailure(p, k, o) == RunUntilFailure(p, k + 1, o)
    ensures FirstFailure(p, k, o) == FirstFailure(p, k + 1, o)
  {
  }

  /** Calls are listed in strictly increasing slot order, all from slot `k` on. */
  lemma {:induction false} RunOrdered(p: seq<seq<Step>>, k: nat)
    requires Staged(p)
    ensures forall i :: 0 <= i < |Run(p, k)| ==> k <= StageOf(Run(p, k)[i]) < |p|
    ensures forall i, j :: 0 <= i < j < |Run(p, k)| ==> StageOf(Run(p, k)[i]) < StageOf(Run(p, k)[j])
    decreases |p| - k
  {
    if k < |p| {
      RunOrdered(p, k + 1);
      var e, r := p[k], Run(p, k + 1);
      assert Run(p, k) == e + r;
      forall i | 0 <= i < |e + r|
        ensures k <= StageOf((e + r)[i]) < |p|
      {
        if i < |e| { assert (e + r)[i] in e; } else { assert (e + r)[i] == r[i - |e|]; }
      }
      forall i, j | 0 <= i < j < |e + r|
        ensures StageOf((e + r)[i]) < StageOf((e + r)[j])
      {
        if i < |e| {
          assert (e + r)[i] in e;
          assert (e + r)[j] == r[j - |e|];
        } else {
          assert (e + r)[i] == r[i - |e|] && (e + r)[j] == r[j - |e|];
        }
      }
    }
  }

  /** A call is planned from slot `k` on exactly when its own slot is not earlier and holds it. */
  lemma {:induction false} RunContents(p: seq<seq<Step>>, k: nat, s: Step)
    requires Staged(p)
    ensures s in Run(p, k) <==> k <= StageOf(s) < |p| && s in p[StageOf(s)]
    decreases |p| - k
  {
    if k < |p| {
      RunContents(p, k + 1, s);
      assert Run(p, k) == p[k] + Run(p, k + 1);
    }
  }

  /**
    The calls made are a prefix of the plan; every one of them succeeded except,
    when the run failed, the last one, which is the call of the failing slot.
  */
  lemma {:induction false} RunUntilFailureIsPrefix(p: seq<seq<Step>>, k: nat, o: Step -> bool)
    requires forall j :: 0 <= j < |p| ==> |p[j]| <= 1
    ensures |RunUntilFailure(p, k, o)| <= |Run(p, k)|
    ensures RunUntilFailure(p, k, o) == Run(p, k)[..|RunUntilFailure(p, k, o)|]
    ensures FirstFailure(p, k, o).None? ==> RunUntilFailure(p, k, o) == Run(p, k)
    ensures FirstFailure(p, k, o).Some? ==>
              RunUntilFailure(p, k, o) != [] &&
              RunUntilFailure(p, k, o)[|RunUntilFailure(p, k, o)| - 1] == p[FirstFailure(p, k, o).value][0]
    ensures forall i :: 0 <= i < |RunUntilFailure(p, k, o)| ==>
              (Fails(o, RunUntilFailure(p, k, o)[i]) <==>
                 FirstFailure(p, k, o).Some? && i == |RunUntilFailure(p, k, o)| - 1)
    decreases |p| - k
  {
    if k < |p| {
      RunUntilFailureIsPrefix(p, k + 1, o);
      var e, r, t := p[k], Run(p, k + 1), RunUntilFailure(p, k + 1, o);
      assert Run(p, k) == e + r;
      if !FailsIn(e, o) {
        assert RunUntilFailure(p, k, o) == e + t;
        assert (e + r)[..|e + t|] == e + r[..|t|];
        forall i | 0 <= i < |e + t|
          ensures Fails(o, (e + t)[i]) <==> FirstFailure(p, k, o).Some? && i == |e + t| - 1
        {
          if i < |e| { assert (e + t)[i] == e[0]; } else { assert (e + t)[i] == t[i - |e|]; }
        }
        if FirstFailure(p, k, o).Some? {
          assert (e + t)[|e + t| - 1] == t[|t| - 1];
        }
      } else {
        assert RunUntilFailure(p, k, o) == e && |e| == 1;
        assert (e + r)[..1] == e;
      }
    }
  }

  /** The first failure is at or after `st` exactly when no planned call of an earlier slot fails. */
  lemma {:induction false} FirstFailureBound(p: seq<seq<Step>>, k: nat, o: Step -> bool, st: nat)
    requires Staged(p)
    ensures (match FirstFailure(p, k, o) case None => true case Some(f) => st <= f)
            <==> forall s :: s in Run(p, k) && StageOf(s) < st ==> !Fails(o, s)
    decreases |p| - k
  {
    if k < |p| {
      FirstFailureBound(p, k + 1, o, st);
      assert Run(p, k) == p[k] + Run(p, k + 1);
      if FailsIn(p[k], o) && k < st {
        assert p[k][0] in Run(p, k);
      }
      if !FailsIn(p[k], o) && FirstFailure(p, k + 1, o).Some? {
        var f := FirstFailure(p, k + 1, o).value;
        if f < st {
          RunContents(p, k + 1, p[f][0]);
          assert p[f][0] in Run(p, k + 1);
        }
      }
    }
  }

  /** In a prefix of a stage-ordered sequence, a call of an earlier stage than a present one is present, and before it. */
  lemma PrefixKeepsOrder(r: seq<Step>, t: seq<Step>, a: Step, b: Step) returns (ia: nat)
    requires |t| <= |r| && t == r[..|t|]
    requires forall i, j :: 0 <= i < j < |r| ==> StageOf(r[i]) < StageOf(r[j])
    requires a in r && b in t && StageOf(a) < StageOf(b)
    ensures ia < |t| - 1 && t[ia] == a
    ensures forall i, j :: 0 <= i < |t| && 0 <= j < |t| && t[i] == a && t[j] == b ==> i < j
  {
    ia :| 0 <= ia < |r| && r[ia] == a;
    var jb :| 0 <= jb < |t| && t[jb] == b;
    assert r[jb] == t[jb];
    assert ia < jb;
    assert t[ia] == r[ia];
    forall i, j | 0 <= i < |t| && 0 <= j < |t| && t[i] == a && t[j] == b
      ensures i < j
    {
      assert r[i] == t[i] && r[j] == t[j];
    }
  }

  /**
    A call that was made was preceded, in the trace, by every planned call of an
    earlier slot, and each of those succeeded.
  */
  lemma RunKeepsOrder(p: seq<seq<Step>>, o: Step -> bool, a: Step, b: Step)
    requires Staged(p)
    requires a in Run(p, 0)
    requires b in RunUntilFailure(p, 0, o)
    requires StageOf(a) < StageOf(b)
    ensures a in RunUntilFailure(p, 0, o) && !Fails(o, a)
    ensures forall i, j ::
              (0 <= i < |RunUntilFailure(p, 0, o)| && 0 <= j < |RunUntilFailure(p, 0, o)| &&
               RunUntilFailure(p, 0, o)[i] == a && RunUntilFailure(p, 0, o)[j] == b) ==> i < j
  {
    var t := RunUntilFailure(p, 0, o);
    RunUntilFailureIsPrefix(p, 0, o);
    RunOrdered(p, 0);
    var ia := PrefixKeepsOrder(Run(p, 0), t, a, b);
    assert Fails(o, t[ia]) <==> FirstFailure(p, 0, o).Some? && ia == |t| - 1;
  }

  // ---------------------------------------------------------------------------
  // The bring-up of `init`

  /** Every call of the program sits at its own program point. */
  lemma ProgramStaged(cfg: Config)
    ensures Staged(Program(cfg))
  {
    var p := Program(cfg);
    forall k | 0 <= k < |p| ensures |p[k]| <= 1 && (p[k] != [] ==> StageOf(p[k][0]) == k) {
      ProgramAt(cfg, k);
    }
  }

  /** The calls of a full bring-up under `cfg`, from taking the guard to the last `sys` attribute. */
  function InitPlan(cfg: Config): seq<Step>
  {
    Run(Program(cfg), 0)
  }

  /** The calls a bring-up under `cfg` makes when `o` decides the fallible ones. */
  function InitTrace(cfg: Config, o: Step -> bool): seq<Step>
  {
    RunUntilFailure(Program(cfg), 0, o)
  }

  /** The program point whose call failed, if any. */
  function InitFailure(cfg: Config, o: Step -> bool): Option<nat>
  {
    FirstFailure(Program(cfg), 0, o)
  }

  /** Every call made before program point `st` succeeded, so the run got at least that far. */
  predicate Reached(cfg: Config, o: Step -> bool, st: Stage)
  {
    match InitFailure(cfg, o)
    case None => true
    case Some(f) => st <= f
  }

  /** Errors `init` reports. */
  datatype NewInterpreterError =
    | Simple(message: string)
    | SimpleFrom(source: Step)      // `Simple` carrying the message of a callee outside this model
    | Status(context: string)       // from a PyStatus, with the phase that failed
    | PyErr(context: string)        // from a Python exception, with the operation that raised it
    | Propagated(source: Step)      // raised by code outside this model and passed on by `?`

  /**
    The error `init` returns when call `s` fails: its own message for the lock
    and the `sys` attributes, the PyStatus of the three initialisation phases,
    the Python exception of the importer and `meta_path` operations, and the
    callee's message for the resources state.
  */
  function ErrorFor(s: Step): (e: NewInterpreterError)
    ensures e.Simple? <==> s == LockGuard || s.PySysSetObject?
    ensures e.SimpleFrom? <==> s == NewResourcesState || s == LoadResources
    ensures e.Status? <==> s == PyPreInitialize || s == PyInitializeFromConfig || s == PyInitializeMain
    ensures e.PyErr? <==> s in {ImportOxidizedImporter, InitializeImporter, ImportSys, GetMetaPath, PopMetaPath}
    ensures e.Propagated? <==> s in {PreConfigFromConfig, PyConfigFromConfig, SetArgv} || Infallible(s)
    ensures s.PySysSetObject? ==> e == Simple("unable to set sys." + s.attribute.Name())
  {
    match s
    case LockGuard => Simple("unable to acquire global interpreter guard")
    case PyPreInitialize => Status("Python pre-initialization")
    case PyInitializeFromConfig => Status("initializing Python core")
    case NewResourcesState => SimpleFrom(s)
    case LoadResources => SimpleFrom(s)
    case ImportOxidizedImporter => PyErr("import of oxidized importer module")
    case InitializeImporter => PyErr("initialization of oxidized importer")
    case PyInitializeMain => Status("initializing Python main")
    case ImportSys => PyErr("obtaining sys module")
    case GetMetaPath => PyErr("obtaining sys.meta_path")
    case PopMetaPath => PyErr("sys.meta_path.pop()")
    case PySysSetObject(a) => Simple("unable to set sys." + a.Name())
    case _ => Propagated(s)
  }

  /** Distinct calls fail with distinct errors, so the error names the call that failed. */
  lemma ErrorIdentifiesCall(s: Step, t: Step)
    requires ErrorFor(s) == ErrorFor(t)
    ensures s == t
  {
    if s.PySysSetObject? && t.PySysSetObject? {
      var prefix := "unable to set sys.";
      assert prefix + s.attribute.Name() == prefix + t.attribute.Name();
      assert s.attribute.Name() == (prefix + s.attribute.Name())[|prefix|..];
      assert t.attribute.Name() == (prefix + t.attribute.Name())[|prefix|..];
    }
  }

  /** What a bring-up under `cfg` and `o` returns. */
  function InitResult(cfg: Config, o: Step -> bool): Result<(), NewInterpreterError>
  {
    match InitFailure(cfg, o)
    case None => Success(())
    case Some(f) => Failure(ErrorFor(Program(cfg)[f][0]))
  }

  /** `Reached(st)` holds exactly when every planned call before point `st` succeeds. */
  lemma ReachedMeans(cfg: Config, o: Step -> bool, st: Stage)
    ensures Reached(cfg, o, st) <==>
              forall s :: s in InitPlan(cfg) && StageOf(s) < st ==> !Fails(o, s)
  {
    ProgramStaged(cfg);
    FirstFailureBound(Program(cfg), 0, o, st);
  }

  /** The run succeeds exactly when no planned call fails; then every planned call was made. */
  lemma InitResultMeans(cfg: Config, o: Step -> bool)
    ensures InitResult(cfg, o).Success? <==> forall s :: s in InitPlan(cfg) ==> !Fails(o, s)
    ensures InitResult(cfg, o).Success? ==> InitTrace(cfg, o) == InitPlan(cfg)
    ensures InitResult(cfg, o).Failure? ==>
              InitTrace(cfg, o) != [] &&
              InitResult(cfg, o).error == ErrorFor(InitTrace(cfg, o)[|InitTrace(cfg, o)| - 1])
  {
    ProgramStaged(cfg);
    ReachedMeans(cfg, o, Done);
    RunUntilFailureIsPrefix(Program(cfg), 0, o);
    forall s | s in InitPlan(cfg) ensures StageOf(s) < Done {
      RunContents(Program(cfg), 0, s);
    }
  }

  /** A step belongs to the plan exactly when its own program point makes it under `cfg`. */
  lemma InPlan(cfg: Config, s: Step)
    ensures s in InitPlan(cfg) <==> StageOf(s) < Done && s in Slot(StageOf(s), cfg)
  {
    ProgramStaged(cfg);
    RunContents(Program(cfg), 0, s);
    if StageOf(s) < Done {
      ProgramAt(cfg, StageOf(s));
    }
  }

  /** Trace order follows program order, and every earlier planned call was made and succeeded. */
  lemma TraceKeepsPlanOrder(cfg: Config, o: Step -> bool, a: Step, b: Step)
    requires a in InitPlan(cfg)
    requires b in InitTrace(cfg, o)
    requires StageOf(a) < StageOf(b)
    ensures a in InitTrace(cfg, o) && !Fails(o, a)
    ensures forall i, j ::
              (0 <= i < |InitTrace(cfg, o)| && 0 <= j < |InitTrace(cfg, o)| &&
               InitTrace(cfg, o)[i] == a && InitTrace(cfg, o)[j] == b) ==> i < j
  {
    ProgramStaged(cfg);
    RunKeepsOrder(Program(cfg), o, a, b);
  }

  /** The calls made appear in strictly increasing program-point order. */
  lemma TraceOrdered(cfg: Config, o: Step -> bool)
    ensures forall i, j :: 0 <= i < j < |InitTrace(cfg, o)| ==>
              StageOf(InitTrace(cfg, o)[i]) < StageOf(InitTrace(cfg, o)[j])
  {
    ProgramStaged(cfg);
    RunUntilFailureIsPrefix(Program(cfg), 0, o);
    RunOrdered(Program(cfg), 0);
    var t := InitTrace(cfg, o);
    assert forall i :: 0 <= i < |t| ==> t[i] == InitPlan(cfg)[i];
  }

  // ---------------------------------------------------------------------------
  // The ordering requirements of the bring-up

  /**
    The system backend stores and installs no allocator; jemalloc and Rust
    install theirs.  Debug hooks are installed exactly when `debug` is set.
  */
  lemma AllocatorPlanned(cfg: Config)
    ensures forall k :: PyMemSetAllocator(k) in InitPlan(cfg) <==> ConfiguredAllocator(cfg) == Some(k)
    ensures PyMemSetupDebugHooks in InitPlan(cfg) <==>
              cfg.rawAllocator.Some? && cfg.rawAllocator.value.debug
  {
    forall k ensures PyMemSetAllocator(k) in InitPlan(cfg) <==> ConfiguredAllocator(cfg) == Some(k) {
      InPlan(cfg, PyMemSetAllocator(k));
    }
    InPlan(cfg, PyMemSetupDebugHooks);
  }

  /**
    Once core initialisation has been attempted, the configured allocator and
    debug hooks were installed before it, the hooks after the allocator.
  */
  lemma AllocatorBeforeCoreInit(cfg: Config, o: Step -> bool)
    ensures PyInitializeFromConfig in InitTrace(cfg, o) ==>
              && (forall k :: ConfiguredAllocator(cfg) == Some(k) ==>
                    PyMemSetAllocator(k) in InitTrace(cfg, o))
              && (cfg.rawAllocator.Some? && cfg.rawAllocator.value.debug ==>
                    PyMemSetupDebugHooks in InitTrace(cfg, o))
    ensures forall i, j ::
              (0 <= i < |InitTrace(cfg, o)| && 0 <= j < |InitTrace(cfg, o)| &&
               InitTrace(cfg, o)[i].PyMemSetAllocator? &&
               InitTrace(cfg, o)[j] in {PyMemSetupDebugHooks, PyInitializeFromConfig}) ==> i < j
    ensures forall i, j ::
              (0 <= i < |InitTrace(cfg, o)| && 0 <= j < |InitTrace(cfg, o)| &&
               InitTrace(cfg, o)[i] == PyMemSetupDebugHooks &&
               InitTrace(cfg, o)[j] == PyInitializeFromConfig) ==> i < j
  {
    var t := InitTrace(cfg, o);
    if PyInitializeFromConfig in t {
      AllocatorPlanned(cfg);
      forall k | ConfiguredAllocator(cfg) == Some(k) ensures PyMemSetAllocator(k) in t {
        TraceKeepsPlanOrder(cfg, o, PyMemSetAllocator(k), PyInitializeFromConfig);
      }
      if cfg.rawAllocator.Some? && cfg.rawAllocator.value.debug {
        TraceKeepsPlanOrder(cfg, o, PyMemSetupDebugHooks, PyInitializeFromConfig);
      }
    }
    TraceOrdered(cfg, o);
  }

  /**
    The importer is set up only after core initialisation, and main
    initialisation runs only after the importer (when enabled) is set up.
  */
  lemma ImporterBetweenPhases(cfg: Config, o: Step -> bool)
    ensures InitializeImporter in InitPlan(cfg) <==> cfg.oxidizedImporter
    ensures InitializeImporter in InitTrace(cfg, o) ==>
              PyInitializeFromConfig in InitTrace(cfg, o) && !Fails(o, PyInitializeFromConfig)
    ensures PyInitializeMain in InitTrace(cfg, o) && cfg.oxidizedImporter ==>
              InitializeImporter in InitTrace(cfg, o) && !Fails(o, InitializeImporter)
    ensures forall i, j ::
              (0 <= i < |InitTrace(cfg, o)| && 0 <= j < |InitTrace(cfg, o)| &&
               InitTrace(cfg, o)[i] == PyInitializeFromConfig &&
               InitTrace(cfg, o)[j] in {NewResourcesState, LoadResources, ImportOxidizedImporter,
                                        InitializeImporter, PyInitializeMain}) ==> i < j
  {
    InPlan(cfg, InitializeImporter);
    var t := InitTrace(cfg, o);
    if InitializeImporter in t {
      InPlan(cfg, PyInitializeFromConfig);
      TraceKeepsPlanOrder(cfg, o, PyInitializeFromConfig, InitializeImporter);
    }
    if PyInitializeMain in t && cfg.oxidizedImporter {
      TraceKeepsPlanOrder(cfg, o, InitializeImporter, PyInitializeMain);
    }
    TraceOrdered(cfg, o);
  }

  /**
    The filesystem importer is popped from `sys.meta_path` exactly when it is
    disabled, and only after main initialisation succeeded.
  */
  lemma MetaPathPopAfterMainInit(cfg: Config, o: Step -> bool)
    ensures PopMetaPath in InitPlan(cfg) <==> !cfg.filesystemImporter
    ensures PopMetaPath in InitTrace(cfg, o) ==>
              PyInitializeMain in InitTrace(cfg, o) && !Fails(o, PyInitializeMain)
  {
    InPlan(cfg, PopMetaPath);
    if PopMetaPath in InitTrace(cfg, o) {
      InPlan(cfg, PyInitializeMain);
      TraceKeepsPlanOrder(cfg, o, PyInitializeMain, PopMetaPath);
    }
  }

  /** `sys.oxidized` is always set; the other three attributes only when configured. */
  lemma SysAttributesPlanned(cfg: Config)
    ensures PySysSetObject(Oxidized) in InitPlan(cfg)
    ensures PySysSetObject(Argvb) in InitPlan(cfg) <==> cfg.argvb
    ensures PySysSetObject(Frozen) in InitPlan(cfg) <==> cfg.sysFrozen
    ensures PySysSetObject(Meipass) in InitPlan(cfg) <==> cfg.sysMeipass
  {
    InPlan(cfg, PySysSetObject(Oxidized));
    InPlan(cfg, PySysSetObject(Argvb));
    InPlan(cfg, PySysSetObject(Frozen));
    InPlan(cfg, PySysSetObject(Meipass));
  }

  /** A failing pre-initialisation stops the run after the guard, the table rebuild and the pre-configuration. */
  lemma PreInitFailure(cfg: Config, o: Step -> bool)
    requires !Fails(o, LockGuard) && !Fails(o, PreConfigFromConfig) && Fails(o, PyPreInitialize)
    ensures InitFailure(cfg, o) == Some(PreInit)
    ensures InitTrace(cfg, o) == [LockGuard, RebuildInittab, PreConfigFromConfig, PyPreInitialize]
    ensures InitResult(cfg, o) == Failure(Status("Python pre-initialization"))
  {
    var p := Program(cfg);
    ProgramAt(cfg, Lock);
    ProgramAt(cfg, InittabRebuild);
    ProgramAt(cfg, PreConfig);
    ProgramAt(cfg, PreInit);
    RunStep(p, Lock, o, LockGuard);
    RunStep(p, InittabRebuild, o, RebuildInittab);
    RunStep(p, PreConfig, o, PreConfigFromConfig);
    RunStep(p, PreInit, o, PyPreInitialize);
  }
}
