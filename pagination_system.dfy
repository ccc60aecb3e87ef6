/** `Publishers.paginationSystem` with the reactive runtime made explicit: a single
    engine holds the current state, reduces one event at a time, re-evaluates both
    feedbacks on every new state, and tags each page fetch with a generation number so
    that switch-latest cancellation (of a fetch, or of a whole session on reset) is a
    comparison of numbers. */
module PaginationSystem {
  import opened PaginationModel

  /** Fetch feedback, effect half: the provider's outcome becomes exactly one page
      event carrying that page or that error; a failure never escapes as a failure of
      the state stream. */
  function FetchFeedback<C, E, Err>(outcome: Result<Page<C, E>, Err>): (e: Event<C, E, Err>)
    ensures !e.LoadNext?
    ensures e.PageOk? <==> outcome.Ok?
    ensures outcome.Ok? ==> e.page == outcome.value
    ensures outcome.Failure? ==> e.err == outcome.error
  {
    match outcome
    case Ok(page) => PageOk(page)
    case Failure(err) => PageErr(err)
  }

  /** Trigger feedback for one load-more signal seen while `s` is current: dropped
      while loading, passed as one `LoadNext` while idle. */
  function TriggerFeedback<C, E, Err>(s: PaginationState<C, E, Err>): (evs: seq<Event<C, E, Err>>)
    ensures s.isLoading <==> evs == []
    ensures !s.isLoading ==> evs == [LoadNext]
  {
    if s.isLoading then [] else [LoadNext]
  }

  /** A fetch in flight: its generation number and the dependency it fetches. */
  datatype Fetch<C> = Fetch(id: nat, dependency: C)

  /** `gen` is the number of the latest fetch started; `current` is the state of the
      running session (None before the first initial dependency); `pending` is the one
      fetch whose result may still be reduced. */
  datatype Engine<C, E, Err> = Engine(
    gen: nat,
    current: Option<PaginationState<C, E, Err>>,
    pending: Option<Fetch<C>>)

  /** What the outside world does to the system: supply a new initial dependency
      (session reset), send a load-more signal, or complete the fetch numbered `id`
      with the provider's outcome. */
  datatype Input<C, E, Err> =
    | NewDependency(dependency: C)
    | LoadMoreSignal
    | Resolve(id: nat, outcome: Result<Page<C, E>, Err>)

  /** The engine after one input, the events reduced and the states emitted. */
  datatype Reaction<C, E, Err> = Reaction(
    engine: Engine<C, E, Err>,
    events: seq<Event<C, E, Err>>,
    states: seq<PaginationState<C, E, Err>>)

  /** Exactly one fetch is in flight when the lens asks for one: the latest one
      started, for the dependency the lens gives. */
  ghost predicate Valid<C, E, Err>(en: Engine<C, E, Err>) {
    match en.current
    case None => en.pending.None?
    case Some(s) =>
      match LoadNextPage(s)
      case None => en.pending.None?
      case Some(d) => en.pending == Some(Fetch(en.gen, d))
  }

  function Initial<C, E, Err>(): (en: Engine<C, E, Err>)
    ensures Valid(en) && en.current.None?
  {
    Engine(0, None, None)
  }

  /** Fetch feedback, lens half: make `s` current and re-evaluate `loadNextPage`,
      which (switch-latest) drops the previous fetch and starts a new, newly numbered
      one if the lens asks for it. */
  function Activate<C, E, Err>(gen: nat, s: PaginationState<C, E, Err>): (en: Engine<C, E, Err>)
    ensures Valid(en) && en.current == Some(s)
    ensures en.gen == if LoadNextPage(s).Some? then gen + 1 else gen
  {
    match LoadNextPage(s)
    case None => Engine(gen, Some(s), None)
    case Some(d) => Engine(gen + 1, Some(s), Some(Fetch(gen + 1, d)))
  }

  /** Reduce the (at most one) event produced by a feedback and emit the new state. */
  function Deliver<C, E, Err>(en: Engine<C, E, Err>, evs: seq<Event<C, E, Err>>): (r: Reaction<C, E, Err>)
    requires en.current.Some? && |evs| <= 1
    ensures r.events == evs
    ensures r.states == Scan(en.current.value, evs)
    ensures r.engine.current == Some(Fold(en.current.value, evs))
    ensures r.engine.gen >= en.gen
    ensures Valid(en) ==> Valid(r.engine)
  {
    if evs == [] then Reaction(en, [], [])
    else
      var s := Reduce(en.current.value, evs[0]);
      Reaction(Activate(en.gen, s), evs, [s])
  }

  /** One input. A new dependency replaces the session with a fresh seed (and its
      first fetch); a signal goes through the trigger gate; a fetch result is reduced
      only if it belongs to the fetch still pending, otherwise it is discarded. */
  function Step<C, E, Err>(en: Engine<C, E, Err>, input: Input<C, E, Err>): (r: Reaction<C, E, Err>)
    ensures Valid(en) ==> Valid(r.engine)
    ensures r.engine.gen >= en.gen
    ensures |r.states| <= 1
    ensures input.NewDependency? ==>
      r.states == [Seed(input.dependency)] && r.events == [] &&
      r.engine == Activate(en.gen, Seed(input.dependency))
    ensures !input.NewDependency? && en.current.None? ==> r == Reaction(en, [], [])
    ensures input.Resolve? && (en.pending.None? || en.pending.value.id != input.id) ==>
      r == Reaction(en, [], [])
  {
    match input
    case NewDependency(d) =>
      var s := Seed(d);
      Reaction(Activate(en.gen, s), [], [s])
    case LoadMoreSignal =>
      if en.current.None? then Reaction(en, [], [])
      else Deliver(en, TriggerFeedback(en.current.value))
    case Resolve(id, outcome) =>
      if en.current.Some? && en.pending.Some? && en.pending.value.id == id
      then Deliver(en, [FetchFeedback(outcome)])
      else Reaction(en, [], [])
  }

  /** A sequence of inputs, processed one at a time in arrival order. */
  function Run<C, E, Err>(en: Engine<C, E, Err>, inputs: seq<Input<C, E, Err>>): (r: Reaction<C, E, Err>)
    decreases |inputs|
  {
    if inputs == [] then Reaction(en, [], [])
    else
      var a := Step(en, inputs[0]);
      var b := Run(a.engine, inputs[1..]);
      Reaction(b.engine, a.events + b.events, a.states + b.states)
  }

  lemma {:induction false} RunKeepsValid<C, E, Err>(en: Engine<C, E, Err>, inputs: seq<Input<C, E, Err>>)
    requires Valid(en)
    ensures Valid(Run(en, inputs).engine) && Run(en, inputs).engine.gen >= en.gen
    decreases |inputs|
  {
    if inputs != [] {
      RunKeepsValid(Step(en, inputs[0]).engine, inputs[1..]);
    }
  }

  /** A session's seed: the first input of a fresh system emits the seed state and
      starts the first fetch, for the initial dependency. */
  lemma StartEmitsSeed<C, E, Err>(d: C)
    ensures var r := Step(Initial<C, E, Err>(), NewDependency(d));
      r.states == [Seed(d)] && r.events == [] &&
      r.engine.pending == Some(Fetch(1, d))
  {
  }

  /** A load-more signal while loading produces no event and changes nothing. */
  lemma SignalWhileLoadingDropped<C, E, Err>(en: Engine<C, E, Err>)
    requires en.current.Some? && en.current.value.isLoading
    ensures Step(en, LoadMoreSignal) == Reaction(en, [], [])
  {
  }

  /** A load-more signal while idle produces exactly one `LoadNext`, which is reduced,
      and starts a fetch for the current dependency when there is one. */
  lemma SignalWhileIdleLoads<C, E, Err>(en: Engine<C, E, Err>)
    requires en.current.Some? && !en.current.value.isLoading
    ensures var r := Step(en, LoadMoreSignal);
      r.events == [LoadNext] && r.states == [Reduce(en.current.value, LoadNext)] &&
      r.states[0].isLoading &&
      (en.current.value.nextDependency.Some? ==>
         r.engine.pending == Some(Fetch(en.gen + 1, en.current.value.nextDependency.value)))
  {
  }

  function Signals<C, E, Err>(k: nat): (inputs: seq<Input<C, E, Err>>)
    ensures |inputs| == k && forall i :: 0 <= i < k ==> inputs[i] == LoadMoreSignal
  {
    seq(k, _ => LoadMoreSignal)
  }

  /** A completion for a fetch that is not pending (superseded, or already reduced)
      changes nothing and emits nothing. */
  lemma NonPendingResultDiscarded<C, E, Err>(en: Engine<C, E, Err>, id: nat, outcome: Result<Page<C, E>, Err>)
    requires en.pending.None? || en.pending.value.id != id
    ensures Step(en, Resolve(id, outcome)) == Reaction(en, [], [])
  {
  }

  /** The pending fetch's result delivered twice is reduced once: its page's elements
      are appended once, never duplicated. */
  lemma DuplicateResultReducedOnce<C, E, Err>(en: Engine<C, E, Err>, outcome: Result<Page<C, E>, Err>)
    requires Valid(en) && en.pending.Some?
    ensures var id := en.pending.value.id;
      var r := Run(en, [Resolve(id, outcome), Resolve(id, outcome)]);
      r.events == [FetchFeedback(outcome)] &&
      r.states == [Reduce(en.current.value, FetchFeedback(outcome))]
  {
    var id := en.pending.value.id;
    var inputs := [Resolve(id, outcome), Resolve(id, outcome)];
    var a := Step(en, inputs[0]);
    assert a.engine.pending.None?;
    assert inputs[1..] == [Resolve(id, outcome)];
    assert Run(a.engine, inputs[1..]) == Reaction(a.engine, [], []) by {
      assert Step(a.engine, Resolve(id, outcome)) == Reaction(a.engine, [], []);
      assert [Resolve(id, outcome)][1..] == [];
    }
  }

  /** After the last page (no next dependency) a signal still passes the gate, which
      looks only at `isLoading`; the lens then asks for no fetch, so the session stays
      loading with nothing in flight, and every later signal is dropped. */
  lemma SignalAfterLastPageStaysLoading<C, E, Err>(en: Engine<C, E, Err>, k: nat)
    requires Valid(en) && en.current.Some?
    requires !en.current.value.isLoading && en.current.value.nextDependency.None?
    ensures var r := Step(en, LoadMoreSignal);
      r.states == [Reduce(en.current.value, LoadNext)] &&
      r.engine.current.value.isLoading && r.engine.pending.None? &&
      Run(r.engine, Signals(k)) == Reaction(r.engine, [], [])
  {
    SignalsWhileLoadingDropped(Step(en, LoadMoreSignal).engine, k);
  }

  /** Signals are dropped, not buffered: any number of them while loading leaves the
      engine as it was and emits nothing. */
  lemma {:induction false} SignalsWhileLoadingDropped<C, E, Err>(en: Engine<C, E, Err>, k: nat)
    requires en.current.Some? && en.current.value.isLoading
    ensures Run(en, Signals(k)) == Reaction(en, [], [])
    decreases k
  {
    if k > 0 {
      assert Signals<C, E, Err>(k)[1..] == Signals(k - 1);
      SignalsWhileLoadingDropped(en, k - 1);
    }
  }

  /** A burst of signals while idle: the first is honored, the rest arrive while
      loading and are dropped. */
  lemma BurstWhileIdleLoadsOnce<C, E, Err>(en: Engine<C, E, Err>, k: nat)
    requires en.current.Some? && !en.current.value.isLoading && k >= 1
    ensures var r := Run(en, Signals(k));
      r.events == [LoadNext] && r.states == [Reduce(en.current.value, LoadNext)]
  {
    var a := Step(en, LoadMoreSignal);
    assert Signals<C, E, Err>(k)[1..] == Signals(k - 1);
    SignalsWhileLoadingDropped(a.engine, k - 1);
  }

  /** The pending fetch's outcome becomes exactly one page event, which is reduced
      into exactly one emitted state. */
  lemma ResolvePendingReducesOnce<C, E, Err>(en: Engine<C, E, Err>, outcome: Result<Page<C, E>, Err>)
    requires Valid(en) && en.pending.Some?
    ensures var r := Step(en, Resolve(en.pending.value.id, outcome));
      r.events == [FetchFeedback(outcome)] &&
      r.states == [Reduce(en.current.value, FetchFeedback(outcome))] &&
      !r.states[0].isLoading && r.engine.pending.None?
  {
  }

  /** A failed fetch is recovered locally: the state goes idle with the error, the
      dependency and elements are kept, and the next signal retries the same
      dependency with a new fetch. */
  lemma FailureThenRetry<C, E, Err>(en: Engine<C, E, Err>, err: Err)
    requires Valid(en) && en.pending.Some?
    ensures var r1 := Step(en, Resolve(en.pending.value.id, Failure(err)));
      var s := en.current.value;
      r1.states == [s.(isLoading := false, error := Some(err))] &&
      var r2 := Step(r1.engine, LoadMoreSignal);
      r2.events == [LoadNext] &&
      r2.engine.pending == Some(Fetch(en.gen + 1, en.pending.value.dependency))
  {
  }

  /** Within a session, state changes only by reducing the feedbacks' events one at a
      time in arrival order: the emitted states are exactly the scan of the reducer
      over the events, and the final state is their fold. */
  lemma {:induction false} RunReducesInOrder<C, E, Err>(en: Engine<C, E, Err>, inputs: seq<Input<C, E, Err>>)
    requires en.current.Some?
    requires forall i :: 0 <= i < |inputs| ==> !inputs[i].NewDependency?
    ensures var r := Run(en, inputs);
      r.states == Scan(en.current.value, r.events) &&
      r.engine.current == Some(Fold(en.current.value, r.events))
    decreases |inputs|
  {
    if inputs != [] {
      var s := en.current.value;
      var a := Step(en, inputs[0]);
      assert a.states == Scan(s, a.events) && a.engine.current == Some(Fold(s, a.events));
      RunReducesInOrder(a.engine, inputs[1..]);
      var b := Run(a.engine, inputs[1..]);
      ScanAppend(s, a.events, b.events);
      FoldAppend(s, a.events, b.events);
    }
  }

  /** Within a session no element is lost or duplicated: the final elements are the
      session's elements followed by every reduced page's elements. */
  lemma SessionAccumulates<C, E, Err>(en: Engine<C, E, Err>, inputs: seq<Input<C, E, Err>>)
    requires en.current.Some?
    requires forall i :: 0 <= i < |inputs| ==> !inputs[i].NewDependency?
    ensures var r := Run(en, inputs);
      r.engine.current.Some? &&
      r.engine.current.value.elements == en.current.value.elements + Fetched(r.events)
  {
    RunReducesInOrder(en, inputs);
    FoldAccumulates(en.current.value, Run(en, inputs).events);
  }

  /** A result delivered for a fetch numbered below `bound`. */
  predicate IsStale<C, E, Err>(input: Input<C, E, Err>, bound: nat) {
    input.Resolve? && input.id < bound
  }

  function WithoutStale<C, E, Err>(inputs: seq<Input<C, E, Err>>, bound: nat): (r: seq<Input<C, E, Err>>)
    ensures forall i :: 0 <= i < |r| ==> !IsStale(r[i], bound)
    decreases |inputs|
  {
    if inputs == [] then []
    else (if IsStale(inputs[0], bound) then [] else [inputs[0]]) + WithoutStale(inputs[1..], bound)
  }

  /** Once every fetch numbered below `bound` has been superseded, their results never
      change anything: running with them is the same as running without them. */
  lemma {:induction false} StaleResultsIgnored<C, E, Err>(en: Engine<C, E, Err>, inputs: seq<Input<C, E, Err>>, bound: nat)
    requires Valid(en) && bound <= en.gen
    ensures Run(en, inputs) == Run(en, WithoutStale(inputs, bound))
    decreases |inputs|
  {
    if inputs != [] {
      var head, tail := inputs[0], inputs[1..];
      if IsStale(head, bound) {
        assert Step(en, head) == Reaction(en, [], []);
        assert WithoutStale(inputs, bound) == WithoutStale(tail, bound);
        StaleResultsIgnored(en, tail, bound);
      } else {
        var kept := WithoutStale(inputs, bound);
        assert kept == [head] + WithoutStale(tail, bound);
        assert kept[0] == head && kept[1..] == WithoutStale(tail, bound);
        StaleResultsIgnored(Step(en, head).engine, tail, bound);
      }
    }
  }

  /** Session reset: a new initial dependency emits exactly the fresh seed, and from
      then on no result of a fetch started before the reset changes anything. */
  lemma ResetIsolatesSessions<C, E, Err>(en: Engine<C, E, Err>, d: C, inputs: seq<Input<C, E, Err>>)
    requires Valid(en)
    ensures var r := Step(en, NewDependency(d));
      r.states == [Seed(d)] &&
      r.engine.current == Some(Seed(d)) &&
      r.engine.pending == Some(Fetch(en.gen + 1, d)) &&
      Run(r.engine, inputs) == Run(r.engine, WithoutStale(inputs, en.gen + 1))
  {
    StaleResultsIgnored(Step(en, NewDependency(d)).engine, inputs, en.gen + 1);
  }
}
