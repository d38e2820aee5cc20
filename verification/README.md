# coldwire: the provider runtime and its analyzer, modelled and proved

coldwire builds the values of a dependency graph on first use, shares them,
forgets them on invalidation together with everything built from them, and
cleans each one up when nobody holds it any more. Its runtime is one concurrent
protocol of four interacting mechanisms: reference-counted generations with
cascading cleanup, single-flight build attempts guarded by an epoch, a wait-for
graph that detects cycles as they would arise, and invalidation and shutdown
running over all of them. `coldwirevet`, its analyzer, computes which functions
force a Deferred provider when called.

`dafny verify dfyconfig.toml` checks the whole project.

## How the model is built

**The step machine** (`State`, `Steps`, and everything up to `EarlyDrain`) is
the runtime under every interleaving. A state holds the provider nodes, one
record per builder run (its attempt, its scope and, once published, its
generation), one per read in progress, per activation of `invalidate` and per
lease, and Close's own position. A step is one mutex section or one atomic
operation of the code, with the goroutine-local code after it; a run is any
sequence of steps from an empty graph, by any number of goroutines. Builders are
arbitrary: they read, register cleanups and return or fail in any order and any
number. `Invariants`, `References`, `Freshness`, `Waiting`, `Cleanups` and
`Shutdown` state what holds in every reachable state; the `Keep...` files prove
it step by step and `Runs` for whole runs; `History` states what no step ever
undoes, `Agenda` what Close and the invalidations under way still have to do.
The results proper are in `Lifetimes`, `Consistency`, `ReadsOverRuns`,
`ShutReads`, `Retries`, `Outcomes` (what a read returns, and why it fails),
`Waste` (why a build is rejected), `Deadlocks` and `Progress`; about
invalidations and releases as calls, in `Invalidations`, `Cascades` and
`CloserOrder`; about Close, in `CloseOrder`, `Draining`, `CloseWaits`,
`LateBuilds`, `FirstProvider` and `EarlyDrain`. `Finishing`, `Unwinding` and
`Returning` show, with the measure in `Work`, that whatever is under way can be
finished from every reachable state (`Continuations` says what that means), so
that Close can always return.

**The classes** are the sequential pieces with real loops and recursion, on
objects updated in place: `WaitFor` (the depth-first search and the counts),
`Generations` (closers, release and its cascade), `Providers` (recursive
invalidation over cyclic dependents, shutdown), `Builds` (scopes, leases,
finish). Each method is proved equal to a function or predicate on snapshots,
and `Collecting`, `CleanupOrder` (which cleanup comes before which) and the
lemmas beside the classes prove what that amounts to. A call of a cleanup
function is an entry in `Graph.calls`; that a generation refers only to older
ones, which these files take as given, holds in every run of the step machine
(`Invariants.DepsOlder`).

**The analyzer** is in `Analyzer` (the change-until-stable loop, firstForce,
forcesVia, the reports) and `Modular` (packages in import order with exported
facts against one fixpoint over the whole program).

Which step models which code:

| steps | code |
|---|---|
| MakeLazy, MakeEager, PublishEager | graph.go:217-241 |
| StartRead, StartFrom, AddDependent, KeepDep, TakeLease | provider.go:77-130, node.go:212-222 |
| LoadValue, Peek, Acquire, AcquireFails | node.go:101-103, value.go:20-30 |
| EnterClosed, EnterRetry, EnterJoin, EnterCreate | node.go:104-126 |
| JoinCycle, JoinAbort, JoinWait, JoinStart | node.go:128-146 |
| Wake, Abandon, StopWaiting, AbortReturn | node.go:147-168 |
| Register | kind.go:66-71 |
| PublishLazy, DiscardStale, DiscardBroken | node.go:184-203 |
| Unlist, Signal | node.go:204-209 |
| BeginCloser, SkipCloser, EndCloser | graph.go:50-66 |
| StartDropping, DropDep, EndRelease, EndDiscard | value.go:32-52, node.go:199-203 |
| Invalidate, Descend, WalkRelease, WalkReturn | node.go:224-239 |
| EndLease, DropLease | provider.go:93-97 |
| BeginClose, Cancel, Shut, ShutRelease, EndShutting, CloseOnTime | graph.go:101-123, node.go:241-250 |
| Deadline, ForceNext, ForceBegin, ForceSkip, ForceEnd, ForceDone, CloseLate | graph.go:124-148 |

The model takes the following as given, as the code does: a builder joins the
reads it started before it returns (node.go:272 relies on it; the check in
kind.go:52-56 is check-then-act); builders wait for other providers only through
From; builders return or fail and cleanups return, in their own time; an Eager
scope reads Eager providers only, which Go's type checker enforces; and a
provider is constructed without a Close in between (graph.go:237-240 writes
`closed` outside the lock, graph.go:222-233 joins after registering).

## Where the code and its comments differ

- Close is documented to wait for every build in progress (graph.go:85-86,
  graph.go:92-94). When it returns in time, every build that was in flight when it
  was called has finished (`CloseWaits.CloseWaitsForBuilds`), and every value has
  been released and cleaned up (`Draining.ClosedOnTimeIsClean`). A build started
  after Close began can escape it: when an attempt ends, or a value is released,
  inside the loop that shuts the providers, `checkDrained` closes `drained` at
  once, and a read of a provider the loop has not reached yet then starts a new
  attempt. `EarlyDrain.ClosesOverABuild` is such a run. The exact condition is
  known before Close is called: whatever the graph is doing, it can happen if and
  only if the provider constructed first, which the loop shuts last, is not Eager
  (`FirstProvider.ClosesOverABuildIff`). Seen from the moment `drained` is closed,
  it can still happen if and only if some Deferred provider is not yet shut
  (`LateBuilds.LateBuildIff`).
- finish's branch for an attempt that never started (node.go:130-132) cannot be
  reached: `KeepWaiting.NeverAborts`.

## Model

| member | source | states |
|---|---|---|
| Runs.InvKept | node.go:98-250 | every step of the runtime, by whichever goroutine, keeps the whole invariant: counts, single flight, wait counts and acyclicity, freshness, cleanup progress, shutdown |
| Runs.InvReachable | node.go:98-250 | the invariant holds in every state of every run from an empty graph |
| History.NextLater | node.go:178-250 | no step undoes an outcome, an epoch bump, a shut provider, a finished cleanup, a count that reached zero, or a finished read |
| References.Conserved | value.go:20-69 | when one reference leaves one place and one enters another, counts that change accordingly stay equal to the number of holders |
| Lifetimes.CountsAreHolders | value.go:8-17 | in every reachable state a generation's count is the number of its holders: provider slot, swapped-out value awaiting release, dependency entries, reads in transit, leases; a current value has at least one |
| Lifetimes.LeaseKeepsOpen | provider.go:67-83 | while a lease is unreleased and no close was forced, no cleanup of the leased value or of anything it was built from, at any depth, has started |
| Lifetimes.CurrentIsOpen | value.go:8-17 | the same for every provider's current value |
| Lifetimes.DependentsFirst | value.go:32-52 | without a forced close, once any cleanup of d has begun, every cleanup of everything built from d, published or discarded, has run exactly once |
| Lifetimes.AtMostOnce | graph.go:45-55 | no cleanup is ever called twice, forced close or not, and each one passed by its own release has been called |
| Lifetimes.NoLeak | value.go:32-81 | when no provider has a value and all builders, leases, releases and invalidations are over, as after a close, live is empty, every count is zero and every cleanup ever registered ran exactly once, for published, failed and discarded builds alike |
| Consistency.StaleIsDoomed | provider.go:117-121 | on an open graph, a current value that read something no longer current belongs to a provider an invalidation under way still has to visit |
| Consistency.NothingStale | node.go:224-239 | on an open graph with no invalidation under way, every current value was built, transitively, from current values only |
| Consistency.SingleFlight | node.go:113-126 | a provider has at most one attempt whose outcome is open, and no value while it has one |
| Consistency.CurrentEpoch | node.go:184-192 | a current value comes from a published attempt of the provider's present epoch, and no attempt is open beside it |
| ReadsOverRuns.CurrentBeganAfter | node.go:184-230 | a current value's attempt was created after every invalidation of its provider so far |
| Consistency.EagerNeverBuilds | node.go:98-125 | a read of an Eager provider that reaches the lock finds a value or a closed provider, so the missing builder is never called |
| Consistency.RetryOnlyPastValues | value.go:20-30 | acquire fails only on a value that is no longer current |
| ReadsOverRuns.ReadsAreLinearizable | node.go:98-112 | every value a read returns was its provider's current value at some moment of the read |
| ReadsOverRuns.ReadOwnsReference | provider.go:122-128 | a read with ref holds one reference of its own when it returns, which keeps the value and all it was built from alive |
| ReadsOverRuns.ShutForGood | node.go:241-250 | a shut provider stays shut and never has a value again |
| ReadsOverRuns.LateReadsFail | node.go:104-108 | a read that has found nothing when its provider is shut never finds or joins anything: all it can return is ErrClosed |
| ShutReads.ShutReadFails | node.go:98-108 | such a read, whoever makes it, can go on by itself and fails with ErrClosed within three steps of its own |
| ShutReads.OwnStepCloser | node.go:98-108 | any step of its own brings it one closer to that |
| ShutReads.OtherStepKeeps | node.go:98-108 | and no other step moves it or opens the provider again |
| ReadsOverRuns.InvalidationOvertakes | node.go:224-230 | an invalidation overtakes every attempt of its provider whose outcome is open |
| ReadsOverRuns.OvertakenNeverPublished | node.go:184-195 | an overtaken attempt is never published in any later state of the run |
| ReadsOverRuns.ReleasedForGood | value.go:20-30 | a count that has reached zero never rises again |
| ReadsOverRuns.LiveShrinks | value.go:56-81 | after Close has begun live only shrinks and drained stays closed |
| ReadsOverRuns.SignalledOnce | node.go:209-209 | an attempt's done channel is closed at most once |
| Retries.TurnsArePaidFor | node.go:98-168 | between leaving the top of get's loop and returning to it, the provider's value changed or one of its attempts ended: the loop cannot spin |
| Outcomes.BuildFailuresAreReal | node.go:159-164 | a read fails with a builder's error only if, earlier in the run, it waited on an attempt of its own provider that has turned out broken |
| Outcomes.CycleFailuresAreReal | node.go:128-134 | a read fails with ErrCycle only if, when it was about to wait, the attempt it found already waited, over others, on the read's own |
| Outcomes.FailuresAreExcused | node.go:104-108 | a read fails with ErrClosed only when its provider is shut or the graph's context has ended, and with a context's error only if that context can end: the caller's, or the graph's inside a builder |
| Outcomes.AfterTheWait | node.go:155-167 | the next own step after a wait: a read made to leave fails with that reason, a broken attempt makes it fail with the builder's error, a published or stale one sends it back to the top; no attempt waited for is still open |
| Outcomes.CurrentValueIsReturned | node.go:98-112 | a read that is not waiting, or whose wait for an attempt that did not break is over, returns its provider's current value within three steps of its own, from every reachable state |
| Outcomes.OwnStepNearer | node.go:98-112 | whatever step of its own such a read takes brings it one nearer to that value |
| Outcomes.WaitersCanLeave | node.go:137-154 | a caller whose context can end never builds on its own goroutine and can leave its wait in two steps; so can every read in the select once the graph's context has ended |
| Outcomes.CreatorStays | node.go:137-146 | an attempt created inside a builder, or by a caller whose context cannot end, is seen through by its creator, which does nothing else until the attempt's done channel is closed |
| Waste.StaleForAReason | node.go:184-195 | a value is thrown away as stale only if the graph was closed, or the provider invalidated, since its attempt began |
| Invalidations.DependentsInvalidated | node.go:224-239 | when an invalidation returns, every provider that had read the value has itself been invalidated since it began, whoever else was invalidating |
| Invalidations.NothingOldIsCurrent | node.go:224-239 | whatever value the provider or such a dependent has then comes from an attempt begun after the invalidation |
| Invalidations.OwnValueLast | node.go:232-237 | an invalidation gives its own value's reference back only after all dependents were invalidated |
| Invalidations.OneCallAtATime | node.go:232-237 | whatever an invalidation does next, its previous recursive call has returned |
| Cascades.LastReleaseIsACall | value.go:32-52 | whoever gives back the last reference to a value, a cascade, an invalidation or Close, goes on only when that value's cleanups and all they set off are over |
| CloserOrder.LastRegisteredFirst | graph.go:57-66 | without a forced close, when a cleanup has begun, every cleanup of the same build registered after it has run once |
| CloserOrder.ForcedLastFirst | graph.go:135-137 | when a forced close calls a cleanup, all registered after it have begun |
| Waiting.WaitCounted | node.go:55-71 | an accepted wait keeps the counts equal to the reads waiting and the graph acyclic |
| Waiting.WaitUncounted | node.go:73-79 | ending a wait does too, and removes the edge only with its last waiter |
| Paths.AcyclicWithEdge | node.go:53-58 | the test waitFor makes is the right one: an added edge keeps the graph acyclic if and only if its head does not reach its tail |
| KeepWaiting.FreshAttemptClosesNoCycle | node.go:113-129 | an attempt its creator has just made cannot close a cycle |
| KeepWaiting.NeverAborts | node.go:129-134 | so the path that finishes a never-started attempt is dead in every run |
| Deadlocks.WaitForIsAcyclic | node.go:48-71 | the wait-for graph is acyclic in every reachable state |
| Deadlocks.EdgesAreReads | node.go:66-79 | waits[to] is the number of reads of the attempt between waitFor and stopWaiting on to, parallel reads included; the edge exists exactly while there is one |
| Deadlocks.WaitersAreBuilding | node.go:128-157 | whatever waits is an attempt in flight whose builder is running: a finished attempt has no outgoing waits |
| Deadlocks.ReportedCyclesAreReal | node.go:58-64 | when waitFor refuses, every attempt on any path it can report is in progress and waits on the next one, and the refused wait would have closed the circle |
| Progress.AttemptMoves | node.go:126-210 | an unfinished attempt that waits on no unfinished attempt can take a step: being started, a read of its builder, its return, its releases, its signal |
| Progress.NoDeadlock | node.go:126-157 | from every unfinished attempt, following its waits leads to an unfinished attempt that can take a step of its own |
| Progress.SomeoneCanGoOn | node.go:126-157 | while anything is in flight, some unfinished attempt can take a step |
| Progress.NoReleaseStuck | value.go:32-52 | a release never gets stuck: it, or the cleanup at the end of the chain it waits for, can go on |
| Draining.AllShut | graph.go:110-117 | past the shutting loop every provider is closed and has no value |
| Draining.DrainedIsClean | value.go:71-81 | once drained is closed, and unless the deadline branch is just running cleanups, every value ever published is released and each of its cleanups has run exactly once |
| Draining.ClosedOnTimeIsClean | graph.go:122-124 | Close passes its select in time only in such a state |
| Draining.NoLostWakeup | value.go:73-81 | whenever Close waits and nothing is live or in flight, drained is closed, whichever step emptied them |
| Draining.CloseReturns | graph.go:118-124 | when all leases, attempts, releases and reads are over, a waiting Close can return in time |
| Draining.ForcedCloseCleansUp | graph.go:124-138 | when Close returns after its deadline, each cleanup of every value that was live at the deadline has been called exactly once |
| CloseWaits.OnlyLateBuildsEscape | graph.go:118-124 | whatever is in flight when Close returns in time was created after Close began |
| CloseWaits.CloseWaitsForBuilds | graph.go:85-94 | every build in flight when Close was called has finished when it returns in time, its value published or everything it held given back |
| FirstProvider.EagerFirstWaits | graph.go:110-124 | if the provider constructed first is Eager, Close returns in time only when no build at all is in flight |
| FirstProvider.ClosesOverABuildIff | graph.go:85-124 | from any reachable state of an open graph, a continuation exists in which Close returns in time while a build is in flight if and only if the provider constructed first is not Eager |
| LateBuilds.LateBuildIff | graph.go:85-124 | once drained is closed with nothing in flight, Close can return in time over a build if and only if some Deferred provider was not shut at that moment |
| Agenda.AgendaReachable | graph.go:101-117 | the providers Close has still to shut are the first ones constructed, each once and all still open; it and the invalidations wait only for values nobody holds any more |
| CloseOrder.CloseCancels | graph.go:107-117 | when Close shuts providers, and from then on, the graph's context has ended |
| CloseOrder.ConstructedInOrder | graph.go:217-241 | on an open graph, a provider constructed before another stands before it in members |
| CloseOrder.ShutInReverse | graph.go:114-117 | a provider is shut only when all that stand after it in members are |
| Finishing.Finish | node.go:98-210 | from every reachable state the releases, leases, reads and builds under way can all be finished, without a provider losing or gaining a value |
| Unwinding.WalksEnd | node.go:224-239 | from every reachable state every invalidation under way can be finished, cycles among the dependents or not |
| Returning.CloseCanReturn | graph.go:85-124 | from every reachable state in which Close has neither returned nor passed its deadline, some continuation has it return in time with nothing left |
| EarlyDrain.DrainedTooEarly | value.go:73-81 | a reachable state with drained closed while a provider is open |
| EarlyDrain.ClosesOverABuild | graph.go:101-123 | a run in which Close has returned in time and a builder is running |
| WaitFor.Reach | node.go:81-96 | the search returns a real path of waits from start to target, or, with none, has marked start and with every newly marked attempt all it waits on, and never the target; it ends on every graph and in any map order |
| WaitFor.WaitFor | node.go:53-71 | refuses if and only if to already waits on from, naming the sites of a circle that starts and ends at to and changing nothing; otherwise counts exactly one wait; acyclicity is kept |
| WaitFor.StopWaiting | node.go:73-79 | takes one count away and the edge exactly with the last one |
| WaitFor.CountsCancel | node.go:69-78 | stopWaiting undoes its waitFor whatever other wait began in between |
| WaitFor.MachineCounts | node.go:66-79 | the step machine's waits are counted by the functions these methods implement |
| Generations.Graph.CheckDrained | value.go:71-81 | closes drained exactly when the graph is closed and nothing is live or in flight |
| Generations.Closer.Run | graph.go:50-55 | calls the cleanup if nobody has, and reports its error only then |
| Generations.RunAll | graph.go:57-66 | calls the cleanups last first, each once, and returns the errors of exactly those it called |
| Generations.Gen.Acquire | value.go:20-30 | takes a reference if and only if the count is positive |
| Generations.Gen.Release | value.go:32-44 | drops one reference and cascades as the function Released says, returning the errors of the cleanups called in that order |
| Generations.ReleaseAll | value.go:46-52 | releases as the function ReleasedAll says, returning the errors of the cleanups called in that order |
| CleanupOrder.ReleasedOwnFirst | value.go:32-37 | a value's last release calls its own cleanups before anything else, the last registered first |
| CleanupOrder.ReleasedInOrder | value.go:32-52 | then, of two dependencies that only it held, every cleanup of the one read later comes before every cleanup of the one read earlier |
| CleanupOrder.ReleasedAllInOrder | value.go:46-52 | the same for the references of a scope: of two values held by nothing else, the one read later is cleaned up first |
| Generations.NewGen | value.go:54-69 | registers a value with one reference, unless the graph is closed: then nothing changes |
| Collecting.ReleasedBalanced | value.go:32-52 | whatever a release cascades to, it gives up exactly the one reference it was given: all counts still equal the references held |
| Collecting.ReleasedTidy | value.go:32-52 | registered values stay untouched, every cleanup of all others has been called once, none before one of anything built from it |
| Collecting.ReleasedSignals | value.go:38-42 | drained is closed only when there is nothing left, and as soon as there is nothing |
| Collecting.LiveIffHeld | value.go:8-17 | a value is registered if and only if a reference from outside leads to it |
| Collecting.ReleaseCollects | value.go:32-52 | after a release exactly the values other references still reach are left, with all of the above |
| Collecting.AcquiredSound | value.go:20-30 | a successful acquire adds one reference from outside and leaves cleanups and drained alone |
| Collecting.RegisteredBalanced | node.go:187-191 | publishing turns the references a scope collected into the value's, and adds the provider's one |
| Collecting.NothingHeld | value.go:32-52 | with no reference left from outside nothing is registered and every cleanup has been called |
| Providers.Node.AddDependent | node.go:212-222 | an Eager provider records no dependents, any other exactly one more |
| Providers.Node.Invalidate | node.go:224-239 | on any dependents graph, cycles included, it ends, sweeps as Swept says, keeps counts and cleanup order right, cleans up every swept value nobody else held, its own after all the others, and returns the errors of the cleanups called |
| Providers.SweptExactly | node.go:224-239 | the nodes swept are exactly those reachable from the start through the dependents there were |
| Providers.SweptThen | node.go:232-234 | sweeps compose: nodes visited again are only counted again |
| Providers.Node.Shut | node.go:241-250 | closes the provider, takes its value away and releases it, leaving dependents and epoch alone |
| Providers.Close | graph.go:101-120 | on an open graph, takes every member down and leaves all other providers alone, releases what they held, cleans up the values only slots held in the order opposite to that of the members, and closes drained if nothing is left; on a closed one does nothing |
| Providers.CloseIdle | graph.go:89-98 | when only providers hold values, Close leaves none and every cleanup has been called |
| Builds.Scope.OnClose | kind.go:66-71 | registers the cleanup last, or refuses once the builder has returned |
| Builds.TakeCurrent | node.go:101-103 | run alone, get returns the current value with a reference of the reader's own: acquire cannot fail on it |
| Builds.Acquire | provider.go:77-83 | a current value comes with a fresh lease that holds one reference |
| Builds.Lease.Release | provider.go:91-97 | gives the reference back on the first call; further calls change nothing |
| Builds.Publish | node.go:184-197 | publishes if and only if the builder succeeded, the provider is neither closed nor invalidated and the graph is open; the value takes over the scope's cleanups and references |
| Builds.Discard | node.go:199-203 | an unpublished build's own cleanups are called first, the last registered at their head; then all references it collected are given back, and of two values only it held the one read later is cleaned up first |
| Builds.Finish | node.go:176-210 | finish as a whole: outcome, stale flag, hand-over or give-back in the order Discard keeps, and the attempt leaves inflight and wakes Close if it was the last |
| Analyzer.Fixpoint | coldwirevet/analyzer.go:67-80 | in any iteration order and with any recursion, marks exactly the functions from which a call path leads to a forced site or an imported fact; a call of an instance of a marked generic function, declared here or imported, marks its caller |
| Analyzer.CallsAreSites | coldwirevet/analyzer.go:308-317 | the call graph has an edge exactly where a site calls a function or an instance of it |
| Analyzer.MarkedThroughInstance | coldwirevet/analyzer.go:308-317 | a stable map marks every function with a site that calls a marked or imported function, or an instance of one |
| Analyzer.MarkedIffForces | coldwirevet/analyzer.go:67-80 | the marks of a stable, genuine map are that least fixpoint |
| Analyzer.MarkGenuine | coldwirevet/analyzer.go:294-306 | the Via that firstForce composes names a call path that exists and how it ends |
| Analyzer.FirstForceIff | coldwirevet/analyzer.go:294-317 | firstForce finds something exactly when some site forces, or calls a function marked here or in an imported fact |
| Analyzer.FirstForceFound | coldwirevet/analyzer.go:294-306 | what firstForce returns comes from the first site that hits, its forced provider before its callee |
| Analyzer.ReportEager | coldwirevet/analyzer.go:281-292 | reports exactly the sites that force, in order |
| Analyzer.HitsIffForces | coldwirevet/analyzer.go:281-317 | a site is reported exactly when it forces a Deferred provider itself or a call path from its callee does |
| Modular.Analyze | coldwirevet/analyzer.go:67-83 | packages analysed in import order with exported facts mark exactly the functions the whole program's call graph says, each with a Via that names a path of the whole program |
| Modular.PackageIffWhole | coldwirevet/analyzer.go:308-317 | for a function of a package, its own analysis with the facts so far agrees with the whole program's |
| Modular.ViaAcross | coldwirevet/analyzer.go:299-302 | a Via that continues with an imported fact names one path across packages |

## Left out

- Several graphs at once: the wait-for graph is shared between graphs in the code; the model has one graph.
- Cleanup errors in the step machine: its cleanups only run; the classes return and join the errors, but the late list (graph.go:76-83, graph.go:143-146) and what Close does not collect of it are not modelled.
- Contexts: a caller's context is a flag saying that it may end at any moment, the graph's a flag Close sets; deadlines, values and the Context method are left out.
- Sites, error texts, profile entries and clocks: sites are opaque numbers, errors four cases.
- Go's memory model and scheduler: each mutex section and each atomic operation is one step; epochs are unbounded where the code has uint64, counts where it has int64.
- Close racing with construction, scopes used after their builder returned, builders that call Get, runtime.Goexit, panicking cleanups: outside the assumptions above.
- ErrNotConstructed, Get, Try's fast path and the typed wrappers of provider.go and graph.go: dispatch only.
- Generations.Gen.Acquire: run alone, so the compare-and-swap succeeds the first time; that it can be overtaken is in the step machine.
- Providers.Close: stops where CloseContext starts to wait; the wait, the deadline branch and every interleaving are in the step machine.
- get, From and CloseContext as methods: they are loops around waiting, and are modelled as steps.
- Builds.TakeCurrent, Builds.Acquire: the fast path only; waiting and building are in the step machine.
- Builds.Finish: requires that the provider has no value, which single flight guarantees in every run.
- coldwirevet's syntax and type queries, its scope-escape and context reports: they rest on go/types; each function's list of sites is an input.
- edge, examples, benchmarks and commands.
