# CombinePaginationFeedback, modelled in Dafny

CombinePaginationFeedback turns a page provider (a function from a *page dependency*, the
cursor, to an asynchronous page or error) and a stream of "load next" signals into a live
stream of `PaginationState` values: a loading flag, the dependency for the next fetch, the
elements accumulated so far and the last error. `Publishers.paginationSystem` wires four
pieces into a feedback loop: a seed state that is already loading, a fetch feedback that
runs the provider for the dependency the `loadNextPage` lens yields, a trigger feedback
that ignores signals while loading, and a reducer applied one event at a time.

This project models that loop with the reactive runtime made explicit.

- `pagination_model.dfy` (module `PaginationModel`) holds the values. These are `Page`,
  `PaginationState`, the `Event` union (`LoadNext`, `PageOk`, `PageErr`), the seed, the
  reducer and the `loadNextPage` lens. It also holds `Fold` and `Scan`, which reduce a
  sequence of events one at a time.
- `pagination_system.dfy` (module `PaginationSystem`) holds the two feedbacks and an
  `Engine`. The engine is the running system: the current session's state, a generation
  counter and the one fetch whose result may still be reduced. An `Input` is a new initial
  dependency, a load-more signal, or the completion of a numbered fetch. Every emitted state
  re-evaluates the lens, which starts a newly numbered fetch or none. That is the
  switch-latest behaviour of the lensing feedback. A new initial dependency replaces the
  session with a fresh seed, which is the `flatMapLatest` over dependencies in the tests. A
  completion whose number is not the pending fetch's is discarded.
- `page_provider.dfy` (module `PageProviders`) holds `SimplePageProvider.getPage`, the
  tests' page oracle over the data `1...100`.
- `pagination_tests.dfy` (module `PaginationTests`) holds a `Subscription` class. Its
  `states` field is the list the tests' sink appends to. The module also holds the three
  test scenarios as methods. Each drives the subscription step by step and proves the
  exact trace the test asserts.

`PaginationState`, `Page`, `PaginationState.reduce` and `loadNextPage` are defined
elsewhere in the library. `Sources/CombinePaginationFeedback/CombinePaginationFeedback.swift`
only references them: `Page` in the `PageProvider` typealias (line 4), `PaginationState` in
the result type and the seed (lines 27 and 29), the lens at line 32 and the reducer at line
47. Their behaviour is reconstructed from the traces the tests assert:

- a trigger sets `isLoading`;
- a page clears `isLoading`, takes the page's dependency (including none) and appends the
  page's elements;
- a failure clears `isLoading` and records the error, and keeps the dependency and the
  elements;
- `loadNextPage` yields the dependency while loading and nothing while idle.

The reducer's body clears the error on a page and keeps it on a trigger. No test in the
repository exercises either case, so no contract promises them.

The trigger gate (line 41) looks only at `isLoading`. Together with the reconstructed
reducer, whose trigger case sets `isLoading` whatever the dependency, and the reconstructed
lens, this has a consequence. A signal after the last page (dependency none) sets
`isLoading`, the lens then starts no fetch, and the state stays loading
(`SignalAfterLastPageStaysLoading`). No test in the repository sends a signal after the
last page, so this rests on the reconstruction.

`PaginationSystem.Run` folds `Step` over a sequence of inputs, one at a time in arrival
order. It is the trace that the lemmas about whole runs are stated over.

## Model

| member | source | states |
|---|---|---|
| PaginationModel.Seed | Sources/CombinePaginationFeedback/CombinePaginationFeedback.swift:29 | a session starts loading, with the initial dependency, no elements and no error |
| PaginationModel.Reduce | Tests/CombinePaginationFeedbackTests/CombinePaginationFeedbackTests.swift:43-84 | a trigger sets loading and keeps dependency and elements; a page ends loading, takes the page's dependency and appends its elements (length grows by the page size); a failure ends loading, sets the error and keeps dependency and elements |
| PaginationModel.LoadNextPage | Sources/CombinePaginationFeedback/CombinePaginationFeedback.swift:32 | the lens yields a dependency exactly when the state is loading and has one, and it is the state's dependency |
| PaginationModel.Scan | Sources/CombinePaginationFeedback/CombinePaginationFeedback.swift:46-47 | one observed state per event, each the reduction of the previous state by that event; the last is the fold of all events |
| PaginationModel.FoldAccumulates | Tests/CombinePaginationFeedbackTests/CombinePaginationFeedbackTests.swift:45-50 | within a session the accumulated elements are the starting elements followed by every fetched page's elements, in order: none lost, none duplicated |
| PaginationModel.ScanOnlyAppends | Tests/CombinePaginationFeedbackTests/CombinePaginationFeedbackTests.swift:45-50 | every observed state's elements extend the previous state's elements |
| PaginationModel.ScanAppend | Sources/CombinePaginationFeedback/CombinePaginationFeedback.swift:46-47 | reducing two runs of events in turn observes the first run's states, then the second's started from where the first ended |
| PaginationSystem.FetchFeedback | Sources/CombinePaginationFeedback/CombinePaginationFeedback.swift:33-37 | a provider page becomes exactly one page-success event with that page, a provider error exactly one page-failure event with that error, never a trigger |
| PaginationSystem.TriggerFeedback | Sources/CombinePaginationFeedback/CombinePaginationFeedback.swift:39-44 | a signal yields no event while loading and exactly one `LoadNext` while idle |
| PaginationSystem.Activate | Sources/CombinePaginationFeedback/CombinePaginationFeedback.swift:31-38 | re-evaluating the lens on a new state leaves exactly the latest-numbered fetch pending, for the lens's dependency, or none when the lens yields none |
| PaginationSystem.Deliver | Sources/CombinePaginationFeedback/CombinePaginationFeedback.swift:46-47 | a feedback's event is reduced against the current state and the result is the one emitted state |
| PaginationSystem.Step | Sources/CombinePaginationFeedback/CombinePaginationFeedback.swift:28-48 | one input emits at most one state; a new initial dependency emits exactly the seed and the engine continues from the seed, with its first fetch newly numbered, discarding the old session; a completion for a fetch that is not pending changes nothing; the pending-fetch invariant is kept and the generation never decreases |
| PaginationSystem.RunKeepsValid | Sources/CombinePaginationFeedback/CombinePaginationFeedback.swift:31-38 | over any input sequence exactly one fetch is in flight while the lens asks for one, and it is the latest |
| PaginationSystem.StartEmitsSeed | Sources/CombinePaginationFeedback/CombinePaginationFeedback.swift:29 | starting a session emits the seed and starts the first fetch, for the initial dependency, with no trigger |
| PaginationSystem.SignalWhileLoadingDropped | Sources/CombinePaginationFeedback/CombinePaginationFeedback.swift:40-41 | a signal while loading changes nothing and emits nothing |
| PaginationSystem.SignalWhileIdleLoads | Sources/CombinePaginationFeedback/CombinePaginationFeedback.swift:41-43 | a signal while idle yields exactly one `LoadNext`, emits the loading state and starts a fetch for the current dependency |
| PaginationSystem.SignalsWhileLoadingDropped | Sources/CombinePaginationFeedback/CombinePaginationFeedback.swift:40-41 | any number of signals while loading are dropped, not buffered |
| PaginationSystem.BurstWhileIdleLoadsOnce | Sources/CombinePaginationFeedback/CombinePaginationFeedback.swift:40-43 | of a burst of signals while idle, exactly the first is honoured |
| PaginationSystem.ResolvePendingReducesOnce | Sources/CombinePaginationFeedback/CombinePaginationFeedback.swift:34-36 | the pending fetch's outcome is reduced as exactly one page event into exactly one idle state, and no fetch remains pending |
| PaginationSystem.NonPendingResultDiscarded | Sources/CombinePaginationFeedback/CombinePaginationFeedback.swift:31-38 | a completion for a fetch that is not pending, whether superseded or already reduced, changes nothing and emits nothing |
| PaginationSystem.DuplicateResultReducedOnce | Sources/CombinePaginationFeedback/CombinePaginationFeedback.swift:34-36 | the pending fetch's result delivered twice yields exactly one page event and one state, so its elements are appended once |
| PaginationSystem.SignalAfterLastPageStaysLoading | Sources/CombinePaginationFeedback/CombinePaginationFeedback.swift:40-43 | after the last page a signal still sets loading, no fetch starts, and all later signals are dropped |
| PaginationSystem.FailureThenRetry | Sources/CombinePaginationFeedback/CombinePaginationFeedback.swift:36 | a failed fetch leaves the stream running: idle, error set, dependency and elements kept, and the next signal refetches the same dependency |
| PaginationSystem.RunReducesInOrder | Sources/CombinePaginationFeedback/CombinePaginationFeedback.swift:46-47 | within a session the emitted states are exactly the reducer applied to the accepted events one at a time in arrival order |
| PaginationSystem.SessionAccumulates | Tests/CombinePaginationFeedbackTests/CombinePaginationFeedbackTests.swift:45-50 | within a session the final elements are the session's elements followed by every reduced page's elements |
| PaginationSystem.StaleResultsIgnored | Tests/CombinePaginationFeedbackTests/CombinePaginationFeedbackTests.swift:117-127 | results of superseded fetches change neither the engine nor the emitted states |
| PaginationSystem.ResetIsolatesSessions | Tests/CombinePaginationFeedbackTests/CombinePaginationFeedbackTests.swift:117-128 | a new initial dependency emits exactly the fresh seed, the engine then holds the seed (old elements discarded) with one new fetch for the new dependency, and no fetch started before it can affect anything afterwards |
| PageProviders.Data | Tests/CombinePaginationFeedbackTests/CombinePaginationFeedbackTests.swift:147 | the data set is `1...100`: 100 elements, the i-th being i + 1 |
| PageProviders.GetPage | Tests/CombinePaginationFeedbackTests/CombinePaginationFeedbackTests.swift:154-166 | fails with the out-of-bounds error exactly when `n + pageSize >= 100`; otherwise returns dependency `n + pageSize` and elements `n+1 ... n+pageSize`; negative bounds are excluded only where the slice would trap |
| PageProviders.LastElementNeverServed | Tests/CombinePaginationFeedbackTests/CombinePaginationFeedbackTests.swift:155 | a page ending exactly at 100 is refused, so element 100 is never served |
| PageProviders.PagesContinue | Tests/CombinePaginationFeedbackTests/CombinePaginationFeedbackTests.swift:156-160 | elements `1...n` followed by the page at `n` are `1...n + pageSize` |
| PaginationTests.Subscription.constructor | Tests/CombinePaginationFeedbackTests/CombinePaginationFeedbackTests.swift:16 | a subscription starts with no session and no recorded states |
| PaginationTests.Subscription.Send | Tests/CombinePaginationFeedbackTests/CombinePaginationFeedbackTests.swift:29-31 | every state the system emits for an input is appended to the recorded states |
| PaginationTests.Subscription.Complete | Tests/CombinePaginationFeedbackTests/CombinePaginationFeedbackTests.swift:33-39 | completing the fetch in flight appends exactly the reduction of its page event and leaves the system idle |
| PaginationTests.SimplePagination | Tests/CombinePaginationFeedbackTests/CombinePaginationFeedbackTests.swift:14-55 | page size 5 from 0, two triggers, then a reset to 0 yields exactly the eight asserted states |
| PaginationTests.PageError | Tests/CombinePaginationFeedbackTests/CombinePaginationFeedbackTests.swift:57-85 | page size 70: the second fetch fails and yields idle at 70 with elements `1...70` and the out-of-bounds error |
| PaginationTests.DictionaryPage | Tests/CombinePaginationFeedbackTests/CombinePaginationFeedbackTests.swift:102-109 | one last page per dependency: `1...5` for "page1", `6...10` for "page2", empty otherwise |
| PaginationTests.DependencyRequestCanceled | Tests/CombinePaginationFeedbackTests/CombinePaginationFeedbackTests.swift:87-129 | the superseded "page1" result never appears; the trace is loading@page1, loading@page2, idle@none with `6...10` |

## Left out

- The Combine and CombineFeedback runtime (`system`, `Feedback`, `flatMapLatest`, `AnyPublisher`, schedulers) is not part of this model. It is represented by the engine: one input at a time, one reduction at a time, and a generation number per fetch for switch-latest cancellation.
- Each input is processed atomically: a passed signal is reduced before the next signal is looked at. In the real runtime the reduction is scheduled, so several signals arriving before it runs could all pass the gate. The model does not capture that interleaving.
- Time (`TestScheduler`, the Thresher library, the two-second `delay`) is not modelled. A fetch completion is an input that names its fetch's number, and the order of inputs stands for the order in time.
- The errors in the tests are compared through `debugDescription`. Here an error is a value of a type parameter, compared by equality. In the tests it is a `string`.
- Package.swift is build configuration only.
- A page provider returns a publisher, which could emit several pages before completing; the runtime would reduce each as its own page event. The model takes every provider call to produce exactly one page or one error: `Resolve` carries one outcome, and a second result for the same fetch is discarded because the fetch is no longer pending.
- PageProviders.GetPage: does not model the trap of Swift's `Int` addition on overflow in `accumulatedCount + pageSize`; integers here are unbounded, so such a request yields the out-of-bounds failure instead.
- PaginationModel.Reduce: does not state whether a page clears a previous error, or whether a trigger keeps it, because no test in the repository exercises either.
- The `loadNextPage` lens is defined elsewhere in the library; it is reconstructed as "the dependency while loading, none otherwise".
