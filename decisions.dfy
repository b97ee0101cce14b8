/**
 * The small decisions the lifecycle coordinator takes from its settings while it
 * activates and tears down the runtime: the trace buffer's fill policy, the
 * disabled track-event categories, the trace backends, the initializer of the
 * instrumentation bundles, the size of the finalize-time thread pool and the
 * library files recorded in the process metadata.
 */
module Decisions {

  /** Fill policy of the trace session's buffer. */
  datatype FillPolicy = Discard | RingBuffer

  /** Only the setting "discard" selects DISCARD; every other string keeps RING_BUFFER. */
  function FillPolicyOf(setting: string): (p: FillPolicy)
    ensures p == Discard <==> setting == "discard"
  {
    if setting == "discard" then Discard else RingBuffer
  }

  /**
   * The track-event categories handed to the trace backend as disabled. An empty
   * set of enabled categories means "all enabled".
   */
  function DisabledCategories(available: set<string>, enabled: set<string>): (disabled: set<string>)
    ensures enabled == {} ==> disabled == {}
    ensures enabled != {} ==> disabled == available - enabled
  {
    set c | c in available && !(enabled == {}) && c !in enabled
  }

  /** A category ends up traced exactly when it is enabled or when no category was named. */
  lemma CategoryTraced(available: set<string>, enabled: set<string>, c: string)
    requires c in available
    ensures c !in DisabledCategories(available, enabled) <==> (enabled == {} || c in enabled)
  {
  }

  /** Backends the tracing library is initialised with. */
  datatype Backends = Backends(system: bool, inProcess: bool)

  /** A backend setting of "system" or "all" (anything but "inprocess") uses the system backend. */
  predicate IsSystemBackend(backend: string): (system: bool)
    ensures backend == "system" || backend == "all" ==> system
    ensures !system <==> backend == "inprocess"
  {
    backend != "inprocess"
  }

  function BackendsOf(backend: string): (b: Backends)
    ensures b.system || b.inProcess
    ensures b.system <==> IsSystemBackend(backend)
    ensures b.system && b.inProcess <==> backend != "inprocess" && backend != "system"
    ensures !b.inProcess <==> backend == "system"
  {
    Backends(backend != "inprocess", backend != "system")
  }

  /** What the bundle initializer becomes once the global component list is known. */
  datatype InitializerChoice = UseWallClock | UseUserBundle | DisableProject

  lemma SingletonSet(s: set<int>, x: int)
    requires |s| == 1 && x in s
    ensures s == {x}
  {
    assert |s - {x}| == 0;
  }

  /**
   * A component list that is exactly wall-clock uses wall-clock directly, any other
   * non-empty list the user bundle, and an empty list disables the project.
   * `wallClock` is the enumeration value of the wall-clock component.
   */
  function ChooseInitializer(components: set<int>, wallClock: int): (c: InitializerChoice)
    ensures c == UseWallClock <==> components == {wallClock}
    ensures c == UseUserBundle <==> components != {} && components != {wallClock}
    ensures c == DisableProject <==> components == {}
  {
    if |components| == 1 && wallClock in components then
      SingletonSet(components, wallClock);
      UseWallClock
    else if components != {} then
      UseUserBundle
    else
      DisableProject
  }

  /** The worker count of the finalize-time thread pool: never more than eight. */
  function ThreadPoolSize(hardwareConcurrency: nat, configured: nat): (n: nat)
    ensures n <= hardwareConcurrency && n <= configured && n <= 8
    ensures n == hardwareConcurrency || n == configured || n == 8
  {
    var m := if hardwareConcurrency < configured then hardwareConcurrency else configured;
    if m < 8 then m else 8
  }

  /** A memory-map path names a library file unless it is empty or a pseudo-entry like "[heap]". */
  predicate IsLibraryPath(path: string)
  {
    |path| > 0 && path[0] != '['
  }

  /** The set of library files recorded from the memory-map listing. */
  function LibraryFiles(paths: seq<string>): (libraries: set<string>)
    ensures forall p :: p in libraries <==> p in paths && IsLibraryPath(p)
  {
    if paths == [] then {}
    else
      var rest := LibraryFiles(paths[1..]);
      assert forall p :: p in paths <==> p == paths[0] || p in paths[1..];
      if IsLibraryPath(paths[0]) then {paths[0]} + rest else rest
  }
}
