# omnitrace lifecycle coordinator, modelled in Dafny

This project models the lifecycle coordinator of the omnitrace runtime,
`source/lib/omnitrace/library.cpp`. It covers the six public entry points:

- `omnitrace_init_library_hidden`
- `omnitrace_init_tooling_hidden`
- `omnitrace_init_hidden`
- `omnitrace_set_mpi_hidden`
- `omnitrace_set_env_hidden`
- `omnitrace_finalize_hidden`

They drive a process-wide state `PreInit -> Init -> Active -> Finalized`.

The process-wide statics of the source become fields of one class, `Library.Runtime`:

- the state;
- the once flags;
- the first-call arguments;
- init's call counter;
- `set_mpi_called`;
- the environment;
- the push/pop counters;
- the registered finalization functions;
- the preinit callback;
- the per-thread bundle stacks and hash tables (arrays).

Each entry point is a method of that class.

Calls into collaborators are recorded, in order, in the field `events`. These collaborators include the timemory bundles, sampling, the perfetto session, OMPT, RCCLP, roctracer, rocprofiler and coverage.

Thrown errors are modelled as the method returning `Raised(error)` and skipping the rest of its body. Two kinds of throw are conditional:

- `OMNITRACE_CI_THROW` fires only under continuous integration (`cfg.ci`).
- A conditional throw guarded by "continuous integration or debug-init" fires only when `cfg.Strict()`.

The modules:

- `Decisions`: the pure decisions the coordinator takes from its settings. These are the fill policy, the disabled categories, the backends, the bundle initializer, the thread-pool size and the library-path filter.
- `TraceBuffers`: the combining of per-rank trace buffers.
- `Bookkeeping`: finalize's loops over per-thread data. This is the emplace merge of hash tables into thread 0's, and the LIFO drain of leftover bundles.
- `Library`: the settings (`Config`), the collaborator log (`Event`), the outside world at finalize (`Host`) and the `Runtime` class.

Four behaviours of `library.cpp` that the model keeps as written:

- The hash merge inserts with `emplace`, which never replaces an entry (library.cpp:639-646). A hash id keeps thread 0's value, or else the value of the lowest-numbered thread that holds it.
- `init`'s throw for a repeat call with different arguments has no strict-mode condition (library.cpp:509-517). It is raised in every configuration.
- `set_mpi`'s strict-mode throw comes before the call to the preinit callback (library.cpp:218-226). So in strict mode after `Init`, the callback does not run.
- `set_env` passes overwrite flag 0 to `tim::set_env` (library.cpp:168). A name already in the environment keeps its value.

## Model

| member | source | states |
|---|---|---|
| Decisions.FillPolicyOf | source/lib/omnitrace/library.cpp:410-413 | the buffer policy is DISCARD exactly when the setting is "discard", RING_BUFFER for every other string |
| Decisions.DisabledCategories | source/lib/omnitrace/library.cpp:418-427 | no category is disabled when the enabled set is empty; otherwise the disabled set is the available categories minus the enabled ones |
| Decisions.CategoryTraced | source/lib/omnitrace/library.cpp:418-427 | an available category stays traced exactly when it is enabled or no category was named |
| Decisions.IsSystemBackend | source/lib/omnitrace/library.cpp:101-106 | the system backend is in use for the settings "system" and "all", and is not in use exactly for "inprocess" |
| Decisions.BackendsOf | source/lib/omnitrace/library.cpp:442-443 | the system backend is used exactly when the setting is not "inprocess", the in-process backend exactly when it is not "system"; at least one is always used, and both for any other setting |
| Decisions.ChooseInitializer | source/lib/omnitrace/library.cpp:377-396 | wall-clock exactly when the component set is {wall_clock}, the user bundle exactly for any other non-empty set, and disabling the project exactly for the empty set |
| Decisions.ThreadPoolSize | source/lib/omnitrace/library.cpp:784-785 | the pool size is at most the hardware concurrency, the configured size and 8, and equals one of them |
| Decisions.LibraryFiles | source/lib/omnitrace/library.cpp:926-932 | a path is recorded exactly when it is one of the mapped paths, is non-empty and does not start with '[' |
| TraceBuffers.FlattenSize | source/lib/omnitrace/library.cpp:864-877 | the combined buffer is as long as all rank buffers together |
| TraceBuffers.FlattenAppend | source/lib/omnitrace/library.cpp:864-877 | combining two runs of ranks is the concatenation of combining each |
| TraceBuffers.RankAtOffset | source/lib/omnitrace/library.cpp:864-877 | rank i's bytes appear unchanged in the combined buffer, starting after the bytes of ranks 0 .. i-1 |
| TraceBuffers.FlattenEmpty | source/lib/omnitrace/library.cpp:875-877 | the combined buffer is empty exactly when every rank's buffer is empty |
| TraceBuffers.CombineRankTraces | source/lib/omnitrace/library.cpp:875-877 | the loop that moves the first buffer in and appends every later one yields the rank-order concatenation, of the total size |
| Bookkeeping.Emplace | source/lib/omnitrace/library.cpp:639-646 | emplacing keeps every key and value already in the destination and adds only the missing keys of the source, with their values |
| Bookkeeping.MergedKeys | source/lib/omnitrace/library.cpp:632-648 | after the merge thread 0's table holds a key exactly when thread 0 or some thread 1 .. n-1 held it |
| Bookkeeping.MergedKeepsZero | source/lib/omnitrace/library.cpp:632-648 | every entry thread 0 had before the merge keeps its value |
| Bookkeeping.MergedEarliestWins | source/lib/omnitrace/library.cpp:632-648 | a key thread 0 lacked takes the value of the lowest-numbered thread holding it |
| Bookkeeping.EmplaceInto | source/lib/omnitrace/library.cpp:639-640 | the inner loop leaves thread 0's table equal to the emplace of thread i's into it, and no other thread's table changes |
| Bookkeeping.MergeHashTables | source/lib/omnitrace/library.cpp:630-648 | both thread-0 tables end as the in-order emplace merge of all threads' tables (nothing when thread 0 has none); the tables of threads 1 and up are unchanged |
| Bookkeeping.StopsOfIsLifo | source/lib/omnitrace/library.cpp:674-693 | on each thread the k-th bundle stopped is the k-th newest one, and each bundle is stopped once |
| Bookkeeping.DrainLogSize | source/lib/omnitrace/library.cpp:670-694 | the drain performs exactly one stop per open bundle |
| Bookkeeping.DrainLogStopsOpenBundles | source/lib/omnitrace/library.cpp:670-694 | every stop names an existing thread and a bundle that was open on it |
| Bookkeeping.OffsetPopsBound | source/lib/omnitrace/library.cpp:676-681 | the drain adds at most one pop per open bundle: all of them when every thread is offset, none when no thread is |
| Bookkeeping.DrainBundles | source/lib/omnitrace/library.cpp:670-694 | afterwards every thread's stack is empty; the stops are each thread's bundles newest first, thread by thread; the pop count rises by the bundle count of the offset threads |
| Library.PerfettoSetupOf | source/lib/omnitrace/library.cpp:398-446 | the trace library's set-up carries the configured buffer size and shared-memory hint and the chosen fill policy; it uses the system backend exactly when the setting is not "inprocess" and the in-process backend exactly when it is not "system"; it disables only available categories, and an available one exactly when categories were named and it is not among them |
| Library.OwnsSession | source/lib/omnitrace/library.cpp:461 | the process owns an in-process session exactly when perfetto is on and the backend setting is "inprocess", and then only the in-process backend is used |
| Library.MainPops | source/lib/omnitrace/library.cpp:600-607 | running the finalization functions pops one main region per function, in registration order |
| Library.ForcedStops | source/lib/omnitrace/library.cpp:688-689 | each drained bundle is stopped once, in drain order |
| Library.TraceWrittenOnlyWithData | source/lib/omnitrace/library.cpp:838-918 | a trace file is written only by a process that owns an in-process session, only with the non-empty session data, and only to a file that opened |
| Library.FinalOutcome | source/lib/omnitrace/library.cpp:940-953 | finalize reports the open failure exactly when the file did not open for non-empty data; otherwise it reports a push/pop imbalance exactly when, under continuous integration, pushes exceed pops; otherwise it succeeds |
| Library.RunFinalizationFunctions | source/lib/omnitrace/library.cpp:600-607 | every registered finalization function runs once, in order, and the pop count rises by one per function |
| Library.Runtime.constructor | source/lib/omnitrace/library.cpp:185-187 | a process starts in PreInit with clear once flags and counters, no finalizers, a do-nothing preinit callback, empty bundle stacks and hash tables on thread 0 only |
| Library.Runtime.SetEnv | source/lib/omnitrace/library.cpp:156-176 | the name becomes seen; an unset name gets the value and a set one keeps its own; the error is raised exactly for a new name after Init in strict mode |
| Library.Runtime.RunPreinitCallback | source/lib/omnitrace/library.cpp:558-561 | the callback starts the preinit bundle once init has deferred that start to it, and otherwise does nothing |
| Library.Runtime.SetMpi | source/lib/omnitrace/library.cpp:190-227 | the first arguments are captured; a repeat with them changes nothing; any other call stores attached and sets USE_PID=ON only for use, not attached and PreInit; it disables the MPI hook only for !use; it raises after Init in strict mode, and otherwise runs the preinit callback |
| Library.Runtime.ApplyMpi | source/lib/omnitrace/library.cpp:198-226 | the part of set_mpi past its repeat guard, with the same effects and error as above |
| Library.Runtime.InitLibrary | source/lib/omnitrace/library.cpp:231-291 | under continuous integration a call outside PreInit raises; a call that is not the first in PreInit changes nothing; the first call in PreInit sets the once flag, moves to Init, configures the settings and pushes -1 on the critical-trace stack |
| Library.Runtime.StartTooling | source/lib/omnitrace/library.cpp:356-481 | the tooling set-up calls, each only when its feature is on, in source order; the initializer becomes wall-clock or user bundle, or the project is disabled, as ChooseInitializer decides |
| Library.Runtime.Activate | source/lib/omnitrace/library.cpp:335-354 | the scope-exit block starts the samplers and the main bundle, and makes the state Active last |
| Library.Runtime.InitTooling | source/lib/omnitrace/library.cpp:295-491 | with tooling disabled only init_library runs and false is returned; otherwise it succeeds exactly on the first call in PreInit, which leaves the state Active after init_library, the set-up and the scope-exit block; every other call returns false and changes nothing |
| Library.Runtime.EnableTooling | source/lib/omnitrace/library.cpp:310-354 | the successful path of init_tooling: the once flag set, init_library's effect, the set-up and the state Active |
| Library.Runtime.SetUpAndActivate | source/lib/omnitrace/library.cpp:335-481 | init_tooling after init_library: its set-up, then the scope-exit block leaving the state Active |
| Library.InitToolingTwice | source/lib/omnitrace/library.cpp:304-311 | of two init_tooling calls in a row, at most one returns true |
| Library.Runtime.Initialize | source/lib/omnitrace/library.cpp:495-566 | every call is counted and the first arguments captured; a repeat with them does nothing; a repeat with others raises; a first call after Init in strict mode raises; otherwise exactly one finalization function is registered, `OMNITRACE_MODE` set if unset, and the preinit bundle started now if set_mpi was called or deferred to the callback if not |
| Library.Runtime.RegisterInit | source/lib/omnitrace/library.cpp:532-565 | the first init call past its guards registers one finalization function, records the mode and the rewrite flag, and starts or defers the preinit bundle |
| Library.Runtime.PopMainRegions | source/lib/omnitrace/library.cpp:593-609 | the push and pop counts are snapshot; the finalization functions run, one pop each, exactly when pushes exceed pops; then the state is Finalized |
| Library.Runtime.StopBundles | source/lib/omnitrace/library.cpp:650-694 | the main bundle and the RCCLP and OMPT hooks are stopped, then every thread's bundles are drained LIFO, adding pops for offset threads |
| Library.Runtime.TearDown | source/lib/omnitrace/library.cpp:696-835 | the shutdown and post-processing calls after the drain, each under its feature's setting, in source order, with the thread pool sized by ThreadPoolSize |
| Library.Runtime.WriteTrace | source/lib/omnitrace/library.cpp:837-923 | a process owning the session stops it, reads the data (combined over ranks when requested) and writes it when non-empty; the output error is flagged exactly when non-empty data meets a file that does not open |
| Library.Runtime.Conclude | source/lib/omnitrace/library.cpp:925-957 | the metadata and timemory are finalized; the outcome is FinalOutcome of the snapshot counts; the settings are finalized only when nothing was raised |
| Library.Runtime.ConsolidateThreads | source/lib/omnitrace/library.cpp:593-694 | from Active: the counts are snapshot and the pops adjusted, the state becomes Finalized, the hash tables are merged into thread 0's with the other threads' untouched, every bundle stack is emptied, and the calls up to the drain happen in source order |
| Library.Runtime.ShutDownAndReport | source/lib/omnitrace/library.cpp:696-957 | the shutdowns, the trace output, the metadata and the verdict in source order; the verdict is FinalOutcome of the snapshot counts |
| Library.Runtime.FinalizeActive | source/lib/omnitrace/library.cpp:586-957 | from Active: the state becomes Finalized; the reported counts are the snapshot pushes and the adjusted pops; the hash tables are merged into thread 0's; every bundle stack is empty; and the collaborator calls happen in source order |
| Library.Runtime.Finalize | source/lib/omnitrace/library.cpp:570-958 | outside Active nothing changes and finalization is skipped; from Active the state becomes Finalized, the report carries the snapshot pushes, the adjusted pops and the verdict, every bundle stack is empty, the hash tables are merged into thread 0's with the other threads' untouched, and the collaborator calls happen in source order |
| Library.FinalizeTwice | source/lib/omnitrace/library.cpp:579-609 | a finalize after a finalize is skipped, and a finalized runtime stays Finalized |

All entry points keep `Runtime.Valid()`, the class invariant linking the once flags, the state and the captured arguments. They also keep `Runtime.Progressed()`: the state never moves backwards, no once flag is cleared, init's counter, the finalization functions and the set_env names only grow.

## Left out

- `omnitrace_push_trace_hidden`, `omnitrace_pop_trace_hidden` and the region variants: their bodies live in `category_region`, which is not part of this model. The push and pop counters are therefore taken as given, and the pop made by a finalization function is not reflected in them. The source's local pop adjustment is modelled instead.
- The perfetto calls are abstract events carrying the configuration handed over. These are the tracing initialisation, track-event registration, session set-up, start, flush, stop and read-back, and the protobuf serialisation.
- File output is reduced to the open-ok flag and a "trace written" event in `Host`. The procfs maps read is reduced to a list of path names, also in `Host`. The session's read-back data and the per-rank data gathered over MPI are inputs in `Host` too.
- The KB/MB/GB size message, all verbose and debug printing, the banner and `print_settings`: logging and floating point only.
- The `OMNITRACE_DEBUG` toggles around init_library and finalize: they only change printing.
- The backtrace warm-up call and the roctracer runtime-enable flags in init_library: no later effect inside this model.
- Signal blocking and unblocking, sampling, the process sampler, OMPT, RCCLP, roctracer, rocprofiler, the MPI gotcha, coverage and `timemory_finalize` are collaborators. They appear only as events in call order.
- The per-thread sampling switches are not modelled, not even as events. These are the `OMNITRACE_SCOPED_SAMPLING_ON_CHILD_THREADS(false)` scopes (library.cpp:340, 345, 357), `push_enable_sampling_on_child_threads` (350, 611) and `set_sampling_on_all_future_threads(false)` (612). They only decide whether threads created later are sampled, and the model has no thread creation.
- Recording the stop time in `thread_info::set_stop` (library.cpp:589) is not modelled: the model has no clock.
- `tasking` joins, the thread-pool initialisation and the critical-trace `add_hash_id`/`update`/`compute` algorithms appear only as events: concurrency, and code that is not part of this model.
- `std::atexit`, `ensure_finalization` and the static destruction order: process-exit machinery.
- Thread-id recycling, the thread state, the thread-bundle stop and the per-thread report loop: they do not affect the modelled state.
- The main, init and preinit bundles are assumed to be allocated, so their `if(get_…_bundle())` guards are always taken.
- `OMNITRACE_INIT_TOOLING` is read as the configuration field `initTooling`, not by an environment lookup.
- The string parsing of the global component list: the component list is given as a set of enumeration values.
- The null-session check under continuous integration in finalize: a process that owns an in-process session always has one, in this model.
- The unreachable "called after init_library" throw in init_tooling (the state is PreInit right after its guard).
- Races on the once flags: all calls are sequential.
- `omnitrace_init_hidden`'s finalization function is abstracted as the `argv0` label it pops. Its own state check under continuous integration is not modelled, because it always runs while the state is still Active.
