/**
 * The lifecycle coordinator of the instrumentation runtime: the process-wide
 * state PreInit -> Init -> Active -> Finalized, the once flags and captured
 * first-call arguments of the public entry points, and the bookkeeping that
 * finalization performs. Calls into collaborators (bundles, sampling, the trace
 * session, the metrics backend) are recorded, in order, in `events`.
 */
module Library {
  import opened Decisions
  import opened Bookkeeping
  import opened TraceBuffers

  datatype State = PreInit | Init | Active | Finalized

  /** Position of a state in the lifecycle; no operation moves it backwards. */
  function Ord(s: State): nat
  {
    match s
    case PreInit => 0
    case Init => 1
    case Active => 2
    case Finalized => 3
  }

  /** The errors the entry points raise (each aborts the rest of its call). */
  datatype Error =
    | LibraryStateNotPreInit          // init_library entered after PreInit, continuous integration only
    | InitArgumentsDiffer             // init called again with another mode or binary-rewrite flag
    | InitAfterInitialization         // first init after Init, strict only
    | SetEnvAfterInitialization       // a new name set after Init, strict only
    | SetMpiAfterInitialization       // set_mpi after Init, strict only
    | OutputOpenFailed                // the trace file could not be opened
    | UnbalancedPushPop(pushed: nat, popped: nat)   // more pushes than pops, continuous integration only

  datatype Outcome = Ok | Raised(error: Error)

  type Byte = b: int | 0 <= b < 256

  /** The settings the coordinator reads. */
  datatype Config = Config(
    ci: bool,                        // running under continuous integration
    debugInit: bool,                 // debugging of initialization requested
    initTooling: bool,               // OMNITRACE_INIT_TOOLING
    useSampling: bool,
    useProcessSampling: bool,
    useCriticalTrace: bool,
    useTimemory: bool,
    globalComponents: set<int>,      // the enumerated global component list
    wallClock: int,                  // enumeration value of the wall-clock component
    usePerfetto: bool,
    backend: string,
    fillPolicy: string,
    bufferSizeKb: nat,
    shmemSizeHintKb: nat,
    availableCategories: set<string>,
    enabledCategories: set<string>,
    useOmpt: bool,
    useRcclp: bool,
    useRoctracer: bool,
    useRocprofiler: bool,
    useRocmSmi: bool,
    useCodeCoverage: bool,
    threadPoolSize: nat,
    combinedTraces: bool             // per-rank traces are gathered and combined
  )
  {
    /** Usage errors are fatal under continuous integration or when debugging initialization. */
    predicate Strict()
    {
      ci || debugInit
    }
  }

  /** The configuration handed to the tracing library when it is initialised. */
  datatype PerfettoSetup = PerfettoSetup(
    bufferSizeKb: nat,
    policy: FillPolicy,
    disabledCategories: set<string>,
    shmemSizeHintKb: nat,
    backends: Backends)

  function PerfettoSetupOf(cfg: Config): (s: PerfettoSetup)
    ensures s.bufferSizeKb == cfg.bufferSizeKb && s.shmemSizeHintKb == cfg.shmemSizeHintKb
    ensures s.policy == Discard <==> cfg.fillPolicy == "discard"
    ensures s.backends.system <==> cfg.backend != "inprocess"
    ensures s.backends.inProcess <==> cfg.backend != "system"
    ensures s.backends.system || s.backends.inProcess
    ensures s.disabledCategories <= cfg.availableCategories
    ensures forall c :: c in cfg.availableCategories ==>
              (c in s.disabledCategories <==> cfg.enabledCategories != {} && c !in cfg.enabledCategories)
  {
    PerfettoSetup(cfg.bufferSizeKb, FillPolicyOf(cfg.fillPolicy),
                  DisabledCategories(cfg.availableCategories, cfg.enabledCategories),
                  cfg.shmemSizeHintKb, BackendsOf(cfg.backend))
  }

  /** The bundle initializer installed for the instrumentation bundles. */
  datatype Initializer = DefaultInitializer | WallClockInitializer | UserBundleInitializer

  /** What the preinit callback does when set_mpi runs it. */
  datatype Callback = DoNothing | StartPreinitBundle

  datatype InitArgs = InitArgs(mode: string, isBinaryRewrite: bool)
  datatype MpiArgs = MpiArgs(use: bool, attached: bool)

  /** Calls into collaborators, in the order the coordinator makes them. */
  datatype Event =
    | SettingsConfigured
    | InitBundleStarted
    | SamplingSignalsBlocked
    | TaskGroupCreated
    | GlobalBundleInitialized
    | PerfettoInitialized(setup: PerfettoSetup)
    | OmptSetUp
    | RcclpSetUp
    | SessionStarted
    | ProcessSamplerSetUp
    | SamplingSetUp
    | SamplingUnblocked
    | MainBundleStarted
    | PreinitBundleStarted
    | ProcessSignalsBlocked
    | MainPopped(argv0: Label)
    | MainBundleStopped
    | RcclpShutDown
    | OmptShutDown
    | BundleForcedStop(stop: Stop)
    | InitBundleStopped
    | PreinitBundleStopped
    | ProcessSamplerShutDown
    | RoctracerShutDown
    | RocprofilerPostProcessed
    | SamplingShutDown
    | MainBundleReset
    | SamplingPostProcessed
    | ThreadPoolSized(workers: nat)
    | CriticalTraceUpdated
    | ProcessSamplerPostProcessed
    | CriticalTraceComputed
    | TaskingShutDown
    | CoveragePostProcessed
    | SessionStopped
    | TraceWritten(bytes: seq<Byte>)
    | MemoryMapsRecorded(libraries: set<string>)
    | TimemoryFinalized
    | ConfigFinalized

  /** What finalize is given by the world outside the model. */
  datatype Host = Host(
    hardwareConcurrency: nat,
    localTrace: seq<Byte>,           // what the session reads back on this process
    rankTraces: seq<seq<Byte>>,      // every rank's buffer, in rank order, when combining
    outputOpens: bool,               // whether the output file can be opened
    mappedPaths: seq<string>)        // path names of the process's memory maps

  datatype FinalizeReport =
    | Skipped
    | Completed(pushed: nat, popped: nat, outcome: Outcome)

  function Opt(b: bool, e: Event): seq<Event>
  {
    if b then [e] else []
  }

  /** `log` extended by the calls init_tooling makes after init_library, up to its scope-exit block. */
  function ToolingSetupLog(log: seq<Event>, cfg: Config): seq<Event>
  {
    log
    + [InitBundleStarted]
    + Opt(cfg.useSampling, SamplingSignalsBlocked)
    + Opt(cfg.useCriticalTrace, TaskGroupCreated)
    + Opt(cfg.useTimemory, GlobalBundleInitialized)
    + Opt(cfg.usePerfetto, PerfettoInitialized(PerfettoSetupOf(cfg)))
    + Opt(cfg.useOmpt, OmptSetUp)
    + Opt(cfg.useRcclp, RcclpSetUp)
    + Opt(cfg.usePerfetto && !IsSystemBackend(cfg.backend), SessionStarted)
  }

  /** `log` extended by the calls of init_tooling's scope-exit block before it makes the state Active. */
  function ActivationLog(log: seq<Event>, cfg: Config): seq<Event>
  {
    log
    + Opt(cfg.useProcessSampling, ProcessSamplerSetUp)
    + Opt(cfg.useSampling, SamplingSetUp)
    + Opt(cfg.useSampling, SamplingUnblocked)
    + [MainBundleStarted]
  }

  /** The finalization functions are run in registration order, each popping its main region. */
  function MainPops(fns: seq<Label>): (log: seq<Event>)
    ensures |log| == |fns|
    ensures forall i :: 0 <= i < |fns| ==> log[i] == MainPopped(fns[i])
  {
    if fns == [] then [] else MainPops(fns[..|fns| - 1]) + [MainPopped(fns[|fns| - 1])]
  }

  /** Each stop of the drain is one forced stop of a bundle, in drain order. */
  function ForcedStops(stops: seq<Stop>): (log: seq<Event>)
    ensures |log| == |stops|
    ensures forall i :: 0 <= i < |stops| ==> log[i] == BundleForcedStop(stops[i])
  {
    if stops == [] then [] else ForcedStops(stops[..|stops| - 1]) + [BundleForcedStop(stops[|stops| - 1])]
  }

  /** Whether the critical trace (or device sampling needing it) is generated at finalize. */
  predicate GeneratesCriticalTrace(cfg: Config)
  {
    cfg.useCriticalTrace || (cfg.useRocmSmi && cfg.useRoctracer)
  }

  /** `log` extended by the shutdown and post-processing calls finalize makes after the bundle drain. */
  function TeardownLog(log: seq<Event>, cfg: Config, hardwareConcurrency: nat): seq<Event>
  {
    log
    + [InitBundleStopped, PreinitBundleStopped]
    + Opt(cfg.useProcessSampling, ProcessSamplerShutDown)
    + Opt(cfg.useRoctracer, RoctracerShutDown)
    + Opt(cfg.useRocprofiler, RocprofilerPostProcessed)
    + Opt(cfg.useSampling, SamplingShutDown)
    + [MainBundleReset]
    + Opt(cfg.useSampling, SamplingPostProcessed)
    + Opt(GeneratesCriticalTrace(cfg), ThreadPoolSized(ThreadPoolSize(hardwareConcurrency, cfg.threadPoolSize)))
    + Opt(GeneratesCriticalTrace(cfg), CriticalTraceUpdated)
    + Opt(cfg.useProcessSampling, ProcessSamplerPostProcessed)
    + Opt(cfg.useCriticalTrace, CriticalTraceComputed)
    + [TaskingShutDown]
    + Opt(cfg.useCodeCoverage, CoveragePostProcessed)
  }

  /** `log` extended by the calls finalize makes up to the end of the bundle drain. */
  function DrainPhaseLog(log: seq<Event>, cfg: Config, runFinalizers: bool, fns: seq<Label>,
                         stacks: seq<seq<Label>>): seq<Event>
  {
    log
    + [ProcessSignalsBlocked]
    + (if runFinalizers then MainPops(fns) else [])
    + [MainBundleStopped] + Opt(cfg.useRcclp, RcclpShutDown) + Opt(cfg.useOmpt, OmptShutDown)
    + ForcedStops(DrainLog(stacks))
  }

  /** Whether this process owns an in-process trace session that finalize reads back. */
  predicate OwnsSession(cfg: Config): (owns: bool)
    ensures owns <==> cfg.usePerfetto && cfg.backend == "inprocess"
    ensures owns ==> BackendsOf(cfg.backend) == Backends(false, true)
  {
    cfg.usePerfetto && !IsSystemBackend(cfg.backend)
  }

  /** The trace bytes finalize obtains from the session. */
  function TraceData(cfg: Config, host: Host): seq<Byte>
  {
    if cfg.combinedTraces then Flatten(host.rankTraces) else host.localTrace
  }

  /** The trace file cannot be opened although there is something to write. */
  predicate OutputError(cfg: Config, host: Host)
  {
    OwnsSession(cfg) && TraceData(cfg, host) != [] && !host.outputOpens
  }

  /**
   * `log` extended by the calls finalize makes on the trace session: it is
   * flushed and stopped, and its data written when there is any and the file opens.
   */
  function SessionLog(log: seq<Event>, cfg: Config, host: Host): seq<Event>
  {
    if !OwnsSession(cfg) then log
    else if TraceData(cfg, host) != [] && host.outputOpens then log + [SessionStopped, TraceWritten(TraceData(cfg, host))]
    else log + [SessionStopped]
  }

  /** `log` extended by the calls finalize makes after the bundle drain; the settings are finalized only when `ok`. */
  function ClosingLog(log: seq<Event>, cfg: Config, host: Host, ok: bool): seq<Event>
  {
    SessionLog(TeardownLog(log, cfg, host.hardwareConcurrency), cfg, host)
    + [MemoryMapsRecorded(LibraryFiles(host.mappedPaths)), TimemoryFinalized]
    + Opt(ok, ConfigFinalized)
  }

  /** A trace file is written only by a process owning a session, with non-empty data, to a file that opens. */
  lemma TraceWrittenOnlyWithData(log: seq<Event>, cfg: Config, host: Host, d: seq<Byte>)
    requires TraceWritten(d) !in log
    requires TraceWritten(d) in SessionLog(log, cfg, host)
    ensures OwnsSession(cfg) && host.outputOpens && d == TraceData(cfg, host) && d != []
  {
  }

  /** The final verdict: an output error wins; otherwise unbalanced counts fail under continuous integration. */
  function FinalOutcome(cfg: Config, host: Host, pushed: nat, popped: nat): (r: Outcome)
    ensures r == Raised(OutputOpenFailed) <==> OutputError(cfg, host)
    ensures r.Raised? && r.error.UnbalancedPushPop? <==> !OutputError(cfg, host) && cfg.ci && pushed > popped
    ensures r == Ok <==> !OutputError(cfg, host) && !(cfg.ci && pushed > popped)
  {
    if OutputError(cfg, host) then Raised(OutputOpenFailed)
    else if cfg.ci && pushed > popped then Raised(UnbalancedPushPop(pushed, popped))
    else Ok
  }

  /**
   * Running the registered finalization functions: each one pops its main
   * region and the local pop count rises by one per function.
   */
  method RunFinalizationFunctions(fns: seq<Label>, popped: nat) returns (log: seq<Event>, poppedAfter: nat)
    ensures log == MainPops(fns)
    ensures poppedAfter == popped + |fns|
  {
    log, poppedAfter := [], popped;
    for i := 0 to |fns|
      invariant log == MainPops(fns[..i])
      invariant poppedAfter == popped + i
    {
      assert fns[..i + 1][..i] == fns[..i];
      log := log + [MainPopped(fns[i])];
      poppedAfter := poppedAfter + 1;
    }
    assert fns[..|fns|] == fns;
  }

  class Runtime {
    const cfg: Config
    const maxThreads: nat

    var state: State
    var libraryOnce: bool                 // init_library's once flag
    var toolingOnce: bool                 // init_tooling's once flag
    var initCount: nat                    // init's call counter
    var initArgs: Option<InitArgs>        // init's first-call arguments
    var mpiOnce: bool                     // set_mpi's once flag
    var mpiArgs: Option<MpiArgs>          // set_mpi's first-call arguments
    var setMpiCalled: bool
    var attached: bool                    // the process was attached to
    var isBinaryRewrite: bool
    var mpiGotchaEnabled: bool
    var preinitCallback: Callback
    var env: map<string, string>          // the process environment
    var seenEnvNames: set<string>         // names set_env has been called with
    var pushCount: nat
    var popCount: nat
    var finalizers: seq<Label>            // registered finalization functions, by their argv0
    var cidStack: seq<int>                // thread 0's critical-trace id stack
    var initializer: Initializer
    var projectEnabled: bool
    var events: seq<Event>

    const bundles: array<seq<Label>>                          // per-thread open instrumentation bundles
    const isOffset: seq<bool>                                 // per-thread "offset" marks
    const hashIds: array<Option<map<HashId, string>>>         // per-thread hash id tables
    const hashAliases: array<Option<map<HashId, HashId>>>     // per-thread hash alias tables

    ghost predicate Valid()
      reads this
    {
      && maxThreads >= 1
      && bundles.Length == maxThreads && |isOffset| == maxThreads
      && hashIds.Length == maxThreads && hashAliases.Length == maxThreads
      && (libraryOnce <==> state != PreInit)
      && (Ord(state) >= Ord(Active) ==> toolingOnce)
      && (initArgs.Some? <==> initCount > 0)
      && (mpiArgs.Some? <==> mpiOnce)
      && (setMpiCalled <==> mpiOnce)
    }

    /** Nothing moves backwards: the state, the once flags, the call counter and the recorded names only grow. */
    twostate predicate Progressed()
      reads this
    {
      && Ord(old(state)) <= Ord(state)
      && (old(libraryOnce) ==> libraryOnce)
      && (old(toolingOnce) ==> toolingOnce)
      && (old(mpiOnce) ==> mpiOnce)
      && old(initCount) <= initCount
      && old(finalizers) <= finalizers
      && old(seenEnvNames) <= seenEnvNames
    }

    /** A process that has started: every thread's stack is empty and only thread 0 has hash tables. */
    constructor (config: Config, environment: map<string, string>, offsets: seq<bool>)
      requires |offsets| >= 1
      ensures Valid()
      ensures cfg == config && maxThreads == |offsets| && isOffset == offsets
      ensures state == PreInit && env == environment
      ensures !toolingOnce && initCount == 0 && !mpiOnce && seenEnvNames == {}
      ensures pushCount == 0 && popCount == 0 && finalizers == [] && cidStack == [] && events == []
      ensures preinitCallback == DoNothing && mpiGotchaEnabled && projectEnabled
      ensures fresh(bundles) && fresh(hashIds) && fresh(hashAliases)
      ensures forall t :: 0 <= t < maxThreads ==> bundles[t] == []
      ensures hashIds[0] == Some(map[]) && hashAliases[0] == Some(map[])
      ensures forall t :: 1 <= t < maxThreads ==> hashIds[t] == None && hashAliases[t] == None
    {
      cfg := config;
      maxThreads := |offsets|;
      isOffset := offsets;
      state := PreInit;
      libraryOnce, toolingOnce := false, false;
      initCount, initArgs := 0, None;
      mpiOnce, mpiArgs, setMpiCalled := false, None, false;
      attached, isBinaryRewrite, mpiGotchaEnabled := false, false, true;
      preinitCallback := DoNothing;
      env, seenEnvNames := environment, {};
      pushCount, popCount := 0, 0;
      finalizers, cidStack := [], [];
      initializer, projectEnabled := DefaultInitializer, true;
      events := [];
      bundles := new seq<Label>[|offsets|](_ => []);
      hashIds := new Option<map<HashId, string>>[|offsets|](t => if t == 0 then Some(map[]) else None);
      hashAliases := new Option<map<HashId, HashId>>[|offsets|](t => if t == 0 then Some(map[]) else None);
    }

    /** set_env: sets a variable that is not yet set and reports a new name set after Init in strict mode. */
    method SetEnv(name: string, value: string) returns (outcome: Outcome)
      requires Valid()
      modifies this`env, this`seenEnvNames
      ensures Valid() && Progressed()
      ensures seenEnvNames == old(seenEnvNames) + {name}
      ensures env == if name in old(env) then old(env) else old(env)[name := value]
      ensures outcome == if name !in old(seenEnvNames) && Ord(state) >= Ord(Init) && cfg.Strict()
                         then Raised(SetEnvAfterInitialization) else Ok
    {
      var firstTime := name !in seenEnvNames;
      seenEnvNames := seenEnvNames + {name};
      if name !in env {
        env := env[name := value];
      }
      if firstTime && Ord(state) >= Ord(Init) && cfg.Strict() {
        return Raised(SetEnvAfterInitialization);
      }
      return Ok;
    }

    /** Running whatever init stored as the preinit callback. */
    method RunPreinitCallback()
      modifies this`events
      ensures events == old(events) + (if preinitCallback == StartPreinitBundle then [PreinitBundleStarted] else [])
    {
      if preinitCallback == StartPreinitBundle {
        events := events + [PreinitBundleStarted];
      }
    }

    /**
     * set_mpi: a repeat of the first call's arguments does nothing; any other
     * call records the attachment, adjusts the environment or the MPI hook,
     * and runs the preinit callback.
     */
    method SetMpi(use: bool, isAttached: bool) returns (outcome: Outcome)
      requires Valid()
      modifies this`mpiArgs, this`mpiOnce, this`setMpiCalled, this`attached, this`env,
               this`mpiGotchaEnabled, this`events
      ensures Valid() && Progressed()
      ensures mpiArgs == (if old(mpiArgs).None? then Some(MpiArgs(use, isAttached)) else old(mpiArgs))
      ensures old(mpiOnce) && old(mpiArgs) == Some(MpiArgs(use, isAttached)) ==>
                outcome == Ok && unchanged(this)
      ensures !(old(mpiOnce) && old(mpiArgs) == Some(MpiArgs(use, isAttached))) ==>
                && mpiOnce && setMpiCalled && attached == isAttached
                && env == (if use && !isAttached && state == PreInit
                           then old(env)["OMNITRACE_USE_PID" := "ON"] else old(env))
                && mpiGotchaEnabled == (if !use then false else old(mpiGotchaEnabled))
                && (if Ord(state) >= Ord(Init) && cfg.Strict()
                    then outcome == Raised(SetMpiAfterInitialization) && events == old(events)
                    else outcome == Ok
                         && events == old(events) + (if preinitCallback == StartPreinitBundle
                                                     then [PreinitBundleStarted] else []))
    {
      if mpiArgs.None? {
        mpiArgs := Some(MpiArgs(use, isAttached));
      }
      if mpiOnce && mpiArgs.value == MpiArgs(use, isAttached) {
        return Ok;
      }
      outcome := ApplyMpi(use, isAttached);
    }

    /** set_mpi past its repeat guard: records the call and the attachment, then runs the preinit callback. */
    method ApplyMpi(use: bool, isAttached: bool) returns (outcome: Outcome)
      modifies this`mpiOnce, this`setMpiCalled, this`attached, this`env, this`mpiGotchaEnabled, this`events
      ensures mpiOnce && setMpiCalled && attached == isAttached
      ensures env == if use && !isAttached && state == PreInit
                     then old(env)["OMNITRACE_USE_PID" := "ON"] else old(env)
      ensures mpiGotchaEnabled == if !use then false else old(mpiGotchaEnabled)
      ensures Ord(state) >= Ord(Init) && cfg.Strict() ==>
                outcome == Raised(SetMpiAfterInitialization) && events == old(events)
      ensures !(Ord(state) >= Ord(Init) && cfg.Strict()) ==>
                outcome == Ok
                && events == old(events) + (if preinitCallback == StartPreinitBundle then [PreinitBundleStarted] else [])
    {
      mpiOnce := true;
      setMpiCalled := true;
      attached := isAttached;
      if use && !isAttached && state == PreInit {
        env := env["OMNITRACE_USE_PID" := "ON"];
      } else if !use {
        mpiGotchaEnabled := false;
      }
      if Ord(state) >= Ord(Init) && cfg.Strict() {
        return Raised(SetMpiAfterInitialization);
      }
      RunPreinitCallback();
      return Ok;
    }

    /**
     * init_library: only the first call made in PreInit has an effect; it sets
     * its once flag, moves to Init, configures the settings and pushes the
     * critical trace's pseudo-frame -1.
     */
    method InitLibrary() returns (outcome: Outcome)
      requires Valid()
      modifies this`libraryOnce, this`state, this`events, this`cidStack
      ensures Valid() && Progressed()
      ensures outcome == if cfg.ci && old(state) != PreInit then Raised(LibraryStateNotPreInit) else Ok
      ensures old(state) != PreInit || old(libraryOnce) ==> unchanged(this)
      ensures old(state) == PreInit && !old(libraryOnce) ==>
                && libraryOnce && state == Init
                && events == old(events) + [SettingsConfigured]
                && cidStack == old(cidStack) + [-1]
    {
      if cfg.ci && state != PreInit {
        return Raised(LibraryStateNotPreInit);
      }
      if state != PreInit || state == Init || libraryOnce {
        return Ok;
      }
      libraryOnce := true;
      state := Init;
      events := events + [SettingsConfigured];
      cidStack := cidStack + [-1];
      return Ok;
    }

    /** One call into a collaborator, made only when `enabled`. */
    method Record(enabled: bool, e: Event)
      modifies this`events
      ensures events == old(events) + Opt(enabled, e)
    {
      if enabled {
        events := events + [e];
      }
    }

    /** The part of init_tooling between init_library and its scope-exit block. */
    method StartTooling()
      modifies this`events, this`initializer, this`projectEnabled
      ensures events == ToolingSetupLog(old(events), cfg)
      ensures cfg.useTimemory ==>
                match ChooseInitializer(cfg.globalComponents, cfg.wallClock)
                case UseWallClock => initializer == WallClockInitializer && projectEnabled == old(projectEnabled)
                case UseUserBundle => initializer == UserBundleInitializer && projectEnabled == old(projectEnabled)
                case DisableProject => initializer == old(initializer) && !projectEnabled
      ensures !cfg.useTimemory ==> initializer == old(initializer) && projectEnabled == old(projectEnabled)
    {
      events := events + [InitBundleStarted];
      Record(cfg.useSampling, SamplingSignalsBlocked);
      Record(cfg.useCriticalTrace, TaskGroupCreated);
      Record(cfg.useTimemory, GlobalBundleInitialized);
      if cfg.useTimemory {
        match ChooseInitializer(cfg.globalComponents, cfg.wallClock)
        case UseWallClock => initializer := WallClockInitializer;
        case UseUserBundle => initializer := UserBundleInitializer;
        case DisableProject => projectEnabled := false;
      }
      Record(cfg.usePerfetto, PerfettoInitialized(PerfettoSetupOf(cfg)));
      Record(cfg.useOmpt, OmptSetUp);
      Record(cfg.useRcclp, RcclpSetUp);
      Record(cfg.usePerfetto && !IsSystemBackend(cfg.backend), SessionStarted);
    }

    /** init_tooling's scope-exit block: sampling and the main bundle are started, then the state is Active. */
    method Activate()
      modifies this`events, this`state
      ensures events == ActivationLog(old(events), cfg)
      ensures state == Active
    {
      Record(cfg.useProcessSampling, ProcessSamplerSetUp);
      Record(cfg.useSampling, SamplingSetUp);
      Record(cfg.useSampling, SamplingUnblocked);
      events := events + [MainBundleStarted];
      state := Active;
    }

    /**
     * init_tooling: when tooling is disabled it only runs init_library; otherwise
     * only the first call made in PreInit succeeds, and it activates the runtime.
     */
    method InitTooling() returns (success: bool, outcome: Outcome)
      requires Valid()
      modifies this`toolingOnce, this`libraryOnce, this`state, this`events, this`cidStack,
               this`initializer, this`projectEnabled
      ensures Valid() && Progressed()
      ensures success ==> !old(toolingOnce) && toolingOnce
      ensures success <==> cfg.initTooling && old(state) == PreInit && !old(toolingOnce)
      ensures !cfg.initTooling ==>
                && outcome == (if cfg.ci && old(state) != PreInit then Raised(LibraryStateNotPreInit) else Ok)
                && toolingOnce == old(toolingOnce)
                && initializer == old(initializer) && projectEnabled == old(projectEnabled)
                && (old(state) == PreInit ==>
                      state == Init && events == old(events) + [SettingsConfigured]
                      && cidStack == old(cidStack) + [-1])
                && (old(state) != PreInit ==> unchanged(this))
      ensures cfg.initTooling && !success ==> outcome == Ok && unchanged(this)
      ensures success ==>
                && outcome == Ok && state == Active && libraryOnce
                && cidStack == old(cidStack) + [-1]
                && events == ActivationLog(ToolingSetupLog(old(events) + [SettingsConfigured], cfg), cfg)
                && (cfg.useTimemory ==>
                      match ChooseInitializer(cfg.globalComponents, cfg.wallClock)
                      case UseWallClock => initializer == WallClockInitializer && projectEnabled == old(projectEnabled)
                      case UseUserBundle => initializer == UserBundleInitializer && projectEnabled == old(projectEnabled)
                      case DisableProject => initializer == old(initializer) && !projectEnabled)
                && (!cfg.useTimemory ==> initializer == old(initializer) && projectEnabled == old(projectEnabled))
    {
      if !cfg.initTooling {
        outcome := InitLibrary();
        return false, outcome;
      }
      if state != PreInit || state == Init || toolingOnce {
        return false, Ok;
      }
      EnableTooling();
      return true, Ok;
    }

    /** The successful path of init_tooling: init_library, the tooling set-up and the scope-exit block. */
    method EnableTooling()
      requires Valid() && state == PreInit && !toolingOnce
      modifies this`toolingOnce, this`libraryOnce, this`state, this`events, this`cidStack,
               this`initializer, this`projectEnabled
      ensures Valid() && Progressed()
      ensures toolingOnce && state == Active && libraryOnce
      ensures cidStack == old(cidStack) + [-1]
      ensures events == ActivationLog(ToolingSetupLog(old(events) + [SettingsConfigured], cfg), cfg)
      ensures cfg.useTimemory ==>
                match ChooseInitializer(cfg.globalComponents, cfg.wallClock)
                case UseWallClock => initializer == WallClockInitializer && projectEnabled == old(projectEnabled)
                case UseUserBundle => initializer == UserBundleInitializer && projectEnabled == old(projectEnabled)
                case DisableProject => initializer == old(initializer) && !projectEnabled
      ensures !cfg.useTimemory ==> initializer == old(initializer) && projectEnabled == old(projectEnabled)
    {
      toolingOnce := true;
      var _ := InitLibrary();
      SetUpAndActivate();
    }

    /** init_tooling after init_library: the tooling set-up, then the scope-exit block. */
    method SetUpAndActivate()
      requires Valid() && state == Init && toolingOnce
      modifies this`state, this`events, this`initializer, this`projectEnabled
      ensures Valid() && Progressed()
      ensures state == Active
      ensures events == ActivationLog(ToolingSetupLog(old(events), cfg), cfg)
      ensures cfg.useTimemory ==>
                match ChooseInitializer(cfg.globalComponents, cfg.wallClock)
                case UseWallClock => initializer == WallClockInitializer && projectEnabled == old(projectEnabled)
                case UseUserBundle => initializer == UserBundleInitializer && projectEnabled == old(projectEnabled)
                case DisableProject => initializer == old(initializer) && !projectEnabled
      ensures !cfg.useTimemory ==> initializer == old(initializer) && projectEnabled == old(projectEnabled)
    {
      StartTooling();
      // the scope-exit block: skipped once the state is past Active
      if Ord(state) <= Ord(Active) {
        Activate();
      }
    }

    /**
     * init: counts every call; a repeat with the first call's mode and flag
     * returns at once, a repeat with others is an error; the first call
     * registers one finalization function and starts (or defers) the preinit bundle.
     */
    method Initialize(mode: string, binaryRewrite: bool, argv0: string) returns (outcome: Outcome)
      requires Valid()
      modifies this`initCount, this`initArgs, this`finalizers, this`env, this`isBinaryRewrite,
               this`preinitCallback, this`events
      ensures Valid() && Progressed()
      ensures initCount == old(initCount) + 1
      ensures initArgs == if old(initArgs).None? then Some(InitArgs(mode, binaryRewrite)) else old(initArgs)
      ensures old(initCount) > 0 && old(initArgs) == Some(InitArgs(mode, binaryRewrite)) ==>
                outcome == Ok && finalizers == old(finalizers) && env == old(env)
                && isBinaryRewrite == old(isBinaryRewrite) && preinitCallback == old(preinitCallback)
                && events == old(events)
      ensures old(initCount) > 0 && old(initArgs) != Some(InitArgs(mode, binaryRewrite)) ==>
                outcome == Raised(InitArgumentsDiffer) && finalizers == old(finalizers) && env == old(env)
                && isBinaryRewrite == old(isBinaryRewrite) && preinitCallback == old(preinitCallback)
                && events == old(events)
      ensures old(initCount) == 0 && Ord(state) >= Ord(Init) && cfg.Strict() ==>
                outcome == Raised(InitAfterInitialization) && finalizers == old(finalizers) && env == old(env)
                && isBinaryRewrite == old(isBinaryRewrite) && preinitCallback == old(preinitCallback)
                && events == old(events)
      ensures old(initCount) == 0 && !(Ord(state) >= Ord(Init) && cfg.Strict()) ==>
                && outcome == Ok
                && finalizers == old(finalizers) + [argv0]
                && env == (if "OMNITRACE_MODE" in old(env) then old(env) else old(env)["OMNITRACE_MODE" := mode])
                && isBinaryRewrite == binaryRewrite
                && (!setMpiCalled ==> preinitCallback == StartPreinitBundle && events == old(events))
                && (setMpiCalled ==> preinitCallback == old(preinitCallback)
                                     && events == old(events) + [PreinitBundleStarted])
    {
      var count := initCount;
      initCount := initCount + 1;
      if initArgs.None? {
        initArgs := Some(InitArgs(mode, binaryRewrite));
      }
      if count > 0 && initArgs.value == InitArgs(mode, binaryRewrite) {
        return Ok;
      }
      if count > 0 {
        return Raised(InitArgumentsDiffer);
      }
      if Ord(state) >= Ord(Init) && cfg.Strict() {
        return Raised(InitAfterInitialization);
      }
      outcome := RegisterInit(mode, binaryRewrite, argv0);
    }

    /**
     * The first init call past its guards: registers the finalization function
     * that pops the main region, records the mode and starts the preinit bundle,
     * or leaves that to the preinit callback while set_mpi has not been called.
     */
    method RegisterInit(mode: string, binaryRewrite: bool, argv0: string) returns (outcome: Outcome)
      modifies this`finalizers, this`env, this`isBinaryRewrite, this`preinitCallback, this`events
      ensures outcome == Ok
      ensures finalizers == old(finalizers) + [argv0]
      ensures env == if "OMNITRACE_MODE" in old(env) then old(env) else old(env)["OMNITRACE_MODE" := mode]
      ensures isBinaryRewrite == binaryRewrite
      ensures !setMpiCalled ==> preinitCallback == StartPreinitBundle && events == old(events)
      ensures setMpiCalled ==> preinitCallback == old(preinitCallback) && events == old(events) + [PreinitBundleStarted]
    {
      finalizers := finalizers + [argv0];
      if "OMNITRACE_MODE" !in env {
        env := env["OMNITRACE_MODE" := mode];
      }
      isBinaryRewrite := binaryRewrite;
      if !setMpiCalled {
        preinitCallback := StartPreinitBundle;
      } else {
        events := events + [PreinitBundleStarted];
      }
      return Ok;
    }

    /** The pop count finalize ends with, from the counts it snapshot on entry. */
    ghost function PoppedAfterFinalize(): nat
      reads this, bundles
      requires Valid()
    {
      popCount
      + (if pushCount > popCount then |finalizers| else 0)
      + OffsetPops(bundles[..], isOffset)
    }

    /**
     * The trace-session part of finalize: the session is flushed and stopped,
     * its data read back (combined over the ranks when requested) and written
     * when it is not empty; a file that does not open is reported.
     */
    method WriteTrace(host: Host) returns (outputError: bool)
      modifies this`events
      ensures events == SessionLog(old(events), cfg, host)
      ensures outputError == OutputError(cfg, host)
    {
      outputError := false;
      if cfg.usePerfetto && !IsSystemBackend(cfg.backend) {
        events := events + [SessionStopped];
        var data := host.localTrace;
        if cfg.combinedTraces {
          data := CombineRankTraces(host.rankTraces);
        }
        if data != [] {
          if host.outputOpens {
            events := events + [TraceWritten(data)];
          } else {
            outputError := true;
          }
        }
      }
    }

    /**
     * finalize: does nothing unless the state is Active. Otherwise it runs the
     * finalization functions when pushes exceed pops, moves to Finalized, merges
     * the hash tables into thread 0's, drains every thread's bundles, tears the
     * collaborators down, writes the trace and checks the push/pop balance.
     */
    method Finalize(host: Host) returns (report: FinalizeReport)
      requires Valid()
      modifies this`state, this`events, bundles, hashIds, hashAliases
      ensures Valid() && Progressed()
      ensures old(state) != Active ==>
                report == Skipped && unchanged(this)
                && unchanged(bundles) && unchanged(hashIds) && unchanged(hashAliases)
      ensures old(state) == Active ==>
                && report.Completed? && state == Finalized
                && report.pushed == old(pushCount)
                && report.popped == old(PoppedAfterFinalize())
                && report.outcome == FinalOutcome(cfg, host, report.pushed, report.popped)
      ensures old(state) == Active ==>
                && (forall t :: 0 <= t < maxThreads ==> bundles[t] == [])
                && hashIds[0] == MergeIntoFirst(old(hashIds[..]))
                && hashAliases[0] == MergeIntoFirst(old(hashAliases[..]))
                && (forall t :: 1 <= t < maxThreads ==>
                      hashIds[t] == old(hashIds[t]) && hashAliases[t] == old(hashAliases[t]))
                && events == ClosingLog(DrainPhaseLog(old(events), cfg, old(pushCount) > old(popCount), finalizers,
                                                      old(bundles[..])), cfg, host, report.outcome == Ok)
    {
      if state != Active {
        return Skipped;
      }
      var pushed, popped, outcome := FinalizeActive(host);
      return Completed(pushed, popped, outcome);
    }

    /** The body of finalize once the state was found Active. */
    method FinalizeActive(host: Host) returns (pushed: nat, popped: nat, outcome: Outcome)
      requires Valid() && state == Active
      modifies this`state, this`events, bundles, hashIds, hashAliases
      ensures state == Finalized
      ensures pushed == old(pushCount)
      ensures popped == old(PoppedAfterFinalize())
      ensures outcome == FinalOutcome(cfg, host, pushed, popped)
      ensures forall t :: 0 <= t < maxThreads ==> bundles[t] == []
      ensures hashIds[0] == MergeIntoFirst(old(hashIds[..]))
      ensures hashAliases[0] == MergeIntoFirst(old(hashAliases[..]))
      ensures forall t :: 1 <= t < maxThreads ==>
                hashIds[t] == old(hashIds[t]) && hashAliases[t] == old(hashAliases[t])
      ensures events == ClosingLog(DrainPhaseLog(old(events), cfg, old(pushCount) > old(popCount), finalizers,
                                                 old(bundles[..])), cfg, host, outcome == Ok)
    {
      pushed, popped := ConsolidateThreads();
      outcome := ShutDownAndReport(host, pushed, popped);
    }

    /**
     * Finalize up to the end of the bundle drain: the finalization functions,
     * the hash merge into thread 0 and the drain of every thread's bundles.
     */
    method ConsolidateThreads() returns (pushed: nat, popped: nat)
      requires Valid() && state == Active
      modifies this`state, this`events, bundles, hashIds, hashAliases
      ensures state == Finalized
      ensures pushed == old(pushCount)
      ensures popped == old(PoppedAfterFinalize())
      ensures forall t :: 0 <= t < maxThreads ==> bundles[t] == []
      ensures hashIds[0] == MergeIntoFirst(old(hashIds[..]))
      ensures hashAliases[0] == MergeIntoFirst(old(hashAliases[..]))
      ensures forall t :: 1 <= t < maxThreads ==>
                hashIds[t] == old(hashIds[t]) && hashAliases[t] == old(hashAliases[t])
      ensures events == DrainPhaseLog(old(events), cfg, old(pushCount) > old(popCount), finalizers, old(bundles[..]))
    {
      ghost var stacks := bundles[..];
      pushed, popped := PopMainRegions();
      MergeHashTables(hashIds, hashAliases);
      assert bundles[..] == stacks;
      popped := StopBundles(popped);
    }

    /** Finalize after the bundle drain: the shutdowns, the trace output, the metadata and the verdict. */
    method ShutDownAndReport(host: Host, pushed: nat, popped: nat) returns (outcome: Outcome)
      modifies this`events
      ensures outcome == FinalOutcome(cfg, host, pushed, popped)
      ensures events == ClosingLog(old(events), cfg, host, outcome == Ok)
    {
      TearDown(host.hardwareConcurrency);
      var outputError := WriteTrace(host);
      outcome := Conclude(host, outputError, pushed, popped);
    }

    /**
     * The first phase of finalize: the push and pop counts are snapshot, the
     * finalization functions run when pushes exceed pops, and the state becomes Finalized.
     */
    method PopMainRegions() returns (pushed: nat, popped: nat)
      modifies this`events, this`state
      ensures pushed == pushCount
      ensures popped == popCount + (if pushCount > popCount then |finalizers| else 0)
      ensures events == old(events) + [ProcessSignalsBlocked]
                        + (if pushCount > popCount then MainPops(finalizers) else [])
      ensures state == Finalized
    {
      events := events + [ProcessSignalsBlocked];
      pushed, popped := pushCount, popCount;
      var ran := [];
      if pushed > popped {
        ran, popped := RunFinalizationFunctions(finalizers, popped);
      }
      events := events + ran;
      state := Finalized;
    }

    /** The main bundle and the OpenMP and RCCL hooks are stopped, then every thread's bundles drained. */
    method StopBundles(popped: nat) returns (poppedAfter: nat)
      requires |isOffset| == bundles.Length
      modifies this`events, bundles
      ensures poppedAfter == popped + OffsetPops(old(bundles[..]), isOffset)
      ensures forall t :: 0 <= t < bundles.Length ==> bundles[t] == []
      ensures events == old(events) + [MainBundleStopped] + Opt(cfg.useRcclp, RcclpShutDown)
                        + Opt(cfg.useOmpt, OmptShutDown) + ForcedStops(DrainLog(old(bundles[..])))
    {
      events := events + [MainBundleStopped] + Opt(cfg.useRcclp, RcclpShutDown) + Opt(cfg.useOmpt, OmptShutDown);
      var stops;
      stops, poppedAfter := DrainBundles(bundles, isOffset, popped);
      events := events + ForcedStops(stops);
    }

    /** The last phase of finalize: metadata, the metrics backend, then the error checks. */
    method Conclude(host: Host, outputError: bool, pushed: nat, popped: nat) returns (outcome: Outcome)
      requires outputError == OutputError(cfg, host)
      modifies this`events
      ensures outcome == FinalOutcome(cfg, host, pushed, popped)
      ensures events == old(events) + [MemoryMapsRecorded(LibraryFiles(host.mappedPaths)), TimemoryFinalized]
                        + Opt(outcome == Ok, ConfigFinalized)
    {
      events := events + [MemoryMapsRecorded(LibraryFiles(host.mappedPaths)), TimemoryFinalized];
      outcome := Ok;
      if outputError {
        outcome := Raised(OutputOpenFailed);
      } else if cfg.ci && pushed > popped {
        outcome := Raised(UnbalancedPushPop(pushed, popped));
      }
      Record(outcome == Ok, ConfigFinalized);
    }

    /** The shutdowns and post-processing finalize performs after the bundle drain. */
    method TearDown(hardwareConcurrency: nat)
      modifies this`events
      ensures events == TeardownLog(old(events), cfg, hardwareConcurrency)
    {
      events := events + [InitBundleStopped, PreinitBundleStopped];
      Record(cfg.useProcessSampling, ProcessSamplerShutDown);
      Record(cfg.useRoctracer, RoctracerShutDown);
      Record(cfg.useRocprofiler, RocprofilerPostProcessed);
      Record(cfg.useSampling, SamplingShutDown);
      events := events + [MainBundleReset];
      Record(cfg.useSampling, SamplingPostProcessed);
      var critical := GeneratesCriticalTrace(cfg);
      Record(critical, ThreadPoolSized(ThreadPoolSize(hardwareConcurrency, cfg.threadPoolSize)));
      Record(critical, CriticalTraceUpdated);
      Record(cfg.useProcessSampling, ProcessSamplerPostProcessed);
      Record(cfg.useCriticalTrace, CriticalTraceComputed);
      events := events + [TaskingShutDown];
      Record(cfg.useCodeCoverage, CoveragePostProcessed);
    }
  }

  /** init_tooling returns true at most once: of two calls in a row, at least one returns false. */
  method InitToolingTwice(rt: Runtime) returns (first: bool, second: bool)
    requires rt.Valid()
    modifies rt
    ensures rt.Valid()
    ensures !(first && second)
    ensures second ==> !old(rt.toolingOnce) && !first
  {
    var outcome;
    first, outcome := rt.InitTooling();
    second, outcome := rt.InitTooling();
  }

  /** Finalized is final: once finalize has run, a second finalize is skipped and the state stays Finalized. */
  method FinalizeTwice(rt: Runtime, host: Host) returns (first: FinalizeReport, second: FinalizeReport)
    requires rt.Valid()
    modifies rt, rt.bundles, rt.hashIds, rt.hashAliases
    ensures rt.Valid()
    ensures second == Skipped
    ensures first.Completed? <==> old(rt.state) == Active
    ensures old(rt.state) == Active || old(rt.state) == Finalized ==> rt.state == Finalized
  {
    first := rt.Finalize(host);
    second := rt.Finalize(host);
  }
}
