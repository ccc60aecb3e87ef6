/** The three scenarios of the test suite, driven step by step as the tests drive their
    subjects: a subscription whose sink appends every emitted state, a provider, and
    the exact state traces the tests assert. */
module PaginationTests {
  import opened PaginationModel
  import opened PaginationSystem
  import opened PageProviders

  /** A subscription to the pagination system: the engine behind it and the `states`
      list that its sink appends every emitted state to. */
  class Subscription<C, E, Err> {
    var engine: Engine<C, E, Err>
    var states: seq<PaginationState<C, E, Err>>

    ghost predicate Valid()
      reads this
    {
      PaginationSystem.Valid(engine)
    }

    constructor ()
      ensures Valid() && engine == Initial() && states == []
    {
      engine := Initial();
      states := [];
    }

    /** One input reaches the system; whatever it emits is appended to `states`. */
    method Send(input: Input<C, E, Err>)
      requires Valid()
      modifies this
      ensures Valid()
      ensures engine == Step(old(engine), input).engine
      ensures states == old(states) + Step(old(engine), input).states
    {
      var r := Step(engine, input);
      engine := r.engine;
      states := states + r.states;
    }

    /** The scheduler advances until the fetch in flight completes with `outcome`:
        exactly one state, the reduction of the page event, is appended. */
    method Complete(outcome: Result<Page<C, E>, Err>)
      requires Valid() && engine.pending.Some?
      modifies this
      ensures Valid()
      ensures engine == Engine(old(engine).gen, Some(Reduce(old(engine).current.value, FetchFeedback(outcome))), None)
      ensures states == old(states) + [Reduce(old(engine).current.value, FetchFeedback(outcome))]
    {
      ResolvePendingReducesOnce(engine, outcome);
      Send(Resolve(engine.pending.value.id, outcome));
    }
  }

  /** The state literal `.init(isLoading:nextDependency:elements:error:)`. */
  function State<C, E>(isLoading: bool, next: Option<C>, elements: seq<E>, error: Option<string> := None): PaginationState<C, E, string>
  {
    PaginationState(isLoading, next, elements, error)
  }

  /** `testSimplePagination`: page size 5 from dependency 0, two triggers, then the
      same initial dependency again, which restarts from the seed. */
  method SimplePagination() returns (states: seq<PaginationState<int, int, string>>)
    ensures states == [
      State(true, Some(0), []),
      State(false, Some(5), Range(1, 5)),
      State(true, Some(5), Range(1, 5)),
      State(false, Some(10), Range(1, 10)),
      State(true, Some(10), Range(1, 10)),
      State(false, Some(15), Range(1, 15)),
      State(true, Some(0), []),
      State(false, Some(5), Range(1, 5))]
  {
    var sub := new Subscription<int, int, string>();
    sub.Send(NewDependency(0));
    sub.Complete(GetPage(5, sub.engine.pending.value.dependency));
    assert [] + Range(1, 5) == Range(1, 5);
    sub.Send(LoadMoreSignal);
    sub.Complete(GetPage(5, sub.engine.pending.value.dependency));
    PagesContinue(5, 5);
    sub.Send(LoadMoreSignal);
    sub.Complete(GetPage(5, sub.engine.pending.value.dependency));
    PagesContinue(5, 10);
    sub.Send(NewDependency(0));
    sub.Complete(GetPage(5, sub.engine.pending.value.dependency));
    assert [] + Range(1, 5) == Range(1, 5);
    states := sub.states;
  }

  /** `testPageError`: page size 70; the second page would run past the data, so the
      state goes idle with the error and keeps dependency and elements. */
  method PageError() returns (states: seq<PaginationState<int, int, string>>)
    ensures states == [
      State(true, Some(0), []),
      State(false, Some(70), Range(1, 70)),
      State(true, Some(70), Range(1, 70)),
      State(false, Some(70), Range(1, 70), Some(OutOfBounds))]
  {
    var sub := new Subscription<int, int, string>();
    sub.Send(NewDependency(0));
    sub.Complete(GetPage(70, sub.engine.pending.value.dependency));
    assert [] + Range(1, 70) == Range(1, 70);
    sub.Send(LoadMoreSignal);
    sub.Complete(GetPage(70, sub.engine.pending.value.dependency));
    states := sub.states;
  }

  /** The provider of `testDependencyRequestCanceled`: one last page per dependency,
      looked up with an empty default (its two-second delay is the order of the
      deliveries below). */
  function DictionaryPage(dependency: string): (r: Result<Page<string, int>, string>)
    ensures r.Ok? && r.value.nextDependency.None?
    ensures dependency == "page1" ==> r.value.elements == Range(1, 5)
    ensures dependency == "page2" ==> r.value.elements == Range(6, 10)
    ensures dependency != "page1" && dependency != "page2" ==> r.value.elements == []
  {
    var data := map["page1" := Range(1, 5), "page2" := Range(6, 10)];
    Ok(Page(None, if dependency in data then data[dependency] else []))
  }

  /** `testDependencyRequestCanceled`: a reset to "page2" arrives while the fetch for
      "page1" is in flight; the "page1" result, delivered first, is never observed. */
  method DependencyRequestCanceled() returns (states: seq<PaginationState<string, int, string>>)
    ensures states == [
      State(true, Some("page1"), []),
      State(true, Some("page2"), []),
      State(false, None, Range(6, 10))]
  {
    var sub := new Subscription<string, int, string>();
    sub.Send(NewDependency("page1"));
    var first := sub.engine.pending.value;
    sub.Send(NewDependency("page2"));
    sub.Send(Resolve(first.id, DictionaryPage(first.dependency)));
    sub.Complete(DictionaryPage(sub.engine.pending.value.dependency));
    assert [] + Range(6, 10) == Range(6, 10);
    states := sub.states;
  }
}
